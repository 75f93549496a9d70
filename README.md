# Response normalisation of the LLM gateway, modelled in Dafny

The gateway turns the decoded payloads that different model providers return
into one OpenAI-shaped response. This project models the core of that
conversion and proves what it does:

- the finish-reason table, which maps a provider's stop code to the OpenAI
  vocabulary (`CoreHelpers`);
- the in-place removal of `index` keys from tool-call dicts, and two lookups
  in a request's keyword arguments: the helper that reads the request
  metadata, and the search for the parent tracing span (`CoreHelpers`);
- the response-header handling. The four rate-limit headers are kept under
  their own names. Every raw header is kept again under an `llm_provider-`
  name. The merged bag is written into the hidden parameters (`Headers`);
- the repair of the packed parallel tool call, a call to the pseudo-function
  `multi_tool_use.parallel`. Each such call is replaced in place by the calls
  it packs (`ToolCallRepair`);
- the two streaming adapters. Each turns a payload into one streaming chunk
  (`Streaming`);
- `convert_to_model_response_object`: the upstream-error check, then the
  completion, image-generation and audio-transcription branches. These write
  into the response object the caller passed in (`ResponseAssembler`).

JSON values are the datatype `JsonValues.Json`. Raising is `Fail` in a
`Result`, and the model fails wherever Python's `in`, iteration or `.get`
would raise on the value at hand. Objects that the code updates in
place are classes:

- the hidden-parameter dict;
- the tool-call list the repair rewrites;
- the model, image and transcription response objects.

Each method on them is proved against a function of the old state, and the
properties are lemmas about those functions. The tool-call removal works in
place on arrays of dicts.

A few behaviours of the code are easy to miss, and the model keeps each of
them as the code has it:

- **Repair shift.** After a sentinel expanded into N calls, the code adds N
  to the shift (`shift += len(replacement)`), although the list grew by only
  N−1. With two sentinels, the second one survives the repair, and the call
  after it, if there is one, is lost instead
  (`ToolCallRepair.RepairTwoSentinelsAsWritten`).
- **Finish reason.** The assembler passes the payload's raw finish reason
  to `Choices`, and never calls the finish-reason table itself
  (`ResponseAssembler.FinishReasonIsNotMapped`). What `Choices` does with it
  is not part of this model.
- **When the repair runs.** Every list of tool calls is repaired, before JSON
  mode is decided on the repaired list.
- **Sentinels left behind.** A sentinel whose `tool_uses` list is empty adds
  no replacement, so it stays in the list
  (`ToolCallRepair.RepairKeepsEmptySentinel`).
- **Tool calls that are not sentinels.** The repair decodes the arguments of
  every call, so undecodable arguments on an ordinary call make it raise
  (`ToolCallRepair.RepairFailsOnUndecodable`).
- **Partial writes.** A completion that raises midway has already written
  `choices`, and possibly other fields, into the caller's object
  (`ResponseAssembler.CompletionFailureKeepsEarlierWrites`).

## Model

| member | source | states |
|---|---|---|
| JsonValues.Contains | litellm/litellm_core_utils/core_helpers.py:78-86 | `key in v` succeeds exactly on a dict, a string or a list: a key test on a dict, a substring test on a string, an element test on a list; anything else raises |
| JsonValues.RecordElements | litellm/litellm_core_utils/llm_response_utils.py:142-146 | what `for x in v` yields when each `x` is then subscripted by a string: a list's elements, nothing for an empty dict or string, a raise otherwise |
| JsonValues.NatToStringRoundTrip | litellm/litellm_core_utils/llm_response_utils.py:488 | the position rendered into a rewritten call's id is all decimal digits and reads back as that position |
| JsonValues.NatToStringInjective | litellm/litellm_core_utils/llm_response_utils.py:488 | distinct positions give distinct id suffixes |
| Headers.OpenAIHeaders | litellm/litellm_core_utils/llm_response_utils.py:42-61 | exactly the rate-limit headers that are present, each with its own value |
| Headers.ProviderHeaders | litellm/litellm_core_utils/llm_response_utils.py:66-68 | every header appears under `llm_provider-<name>` with its value, and every key of the result is such a name |
| Headers.PrefixedNamesAreNotRateLimitKeys | litellm/litellm_core_utils/llm_response_utils.py:71-74 | a namespaced name never collides with a rate-limit name |
| Headers.MergedHeaders | litellm/litellm_core_utils/llm_response_utils.py:71-74 | the bag holds every header under its namespaced name and every present rate-limit header unprefixed, and nothing else |
| Headers.HeaderBag | litellm/litellm_core_utils/llm_response_utils.py:71-74 | the stored object has the merged bag's keys, each holding that header's string |
| Headers.SetHeadersInHiddenParams | litellm/litellm_core_utils/llm_response_utils.py:64-75 | the same dict comes back; when it exists, `additional_headers` is replaced by the bag and every other entry is kept |
| Headers.HeaderBagExample | litellm/litellm_core_utils/llm_response_utils.py:64-75 | `x-ratelimit-limit-tokens: 10` stays unprefixed, and `x-foo: bar` appears only as `llm_provider-x-foo` |
| CoreHelpers.MapFinishReason | litellm/litellm_core_utils/core_helpers.py:10-46 | each provider code goes to its OpenAI code (stop, length, content_filter, tool_calls), and a code outside the table is returned unchanged |
| CoreHelpers.MappedOutputsAreNotInputs | litellm/litellm_core_utils/core_helpers.py:14-45 | every mapped code lands in the OpenAI vocabulary, which contains none of the table's inputs |
| CoreHelpers.MapFinishReasonIdempotent | litellm/litellm_core_utils/core_helpers.py:10-46 | mapping twice is mapping once |
| CoreHelpers.CanonicalCodesPassThrough | litellm/litellm_core_utils/core_helpers.py:46 | an OpenAI code is returned unchanged |
| CoreHelpers.CaseVariantsPassThrough | litellm/litellm_core_utils/core_helpers.py:14-46 | matching is case-sensitive: `Stop` and `Max_Tokens` pass through |
| CoreHelpers.StripIndex | litellm/litellm_core_utils/core_helpers.py:51-52 | the dict loses `index` and keeps every other key with its value |
| CoreHelpers.RemoveIndexFromToolCalls | litellm/litellm_core_utils/core_helpers.py:49-61 | in place, every tool-call dict is stripped of `index`, and every message's `tool_calls` list has its dicts stripped |
| CoreHelpers.NoIndexRemains | litellm/litellm_core_utils/core_helpers.py:49-61 | afterwards no tool-call dict, loose or in a message, has `index` |
| CoreHelpers.StripMessageKeepsTheRest | litellm/litellm_core_utils/core_helpers.py:54-59 | a message keeps its keys and every value other than `tool_calls`; one without `tool_calls` is untouched; stripped calls keep their other keys |
| CoreHelpers.RemoveIndexIdempotent | litellm/litellm_core_utils/core_helpers.py:49-61 | a second removal changes nothing |
| CoreHelpers.GetLitellmMetadataFromKwargs | litellm/litellm_core_utils/core_helpers.py:64-68 | a missing `litellm_params` gives `{}`; a dict gives its `metadata`, default `{}`; any other value raises |
| CoreHelpers.ParentOtelSpanFromKwargs | litellm/litellm_core_utils/core_helpers.py:72-89 | every path: None when kwargs is None; the `metadata` dict's value when it holds the key; the nested `litellm_params.metadata` dict's value when the first level lacks it; otherwise kwargs' own value, None when absent; and None whenever a lookup raises: `in` on a truthy value that is not a dict, string or list, at either metadata level; the subscript of a string or list holding the key, at either level; `litellm_params.get` on a value that is neither None nor a dict |
| CoreHelpers.NestedMetadataRaises | litellm/litellm_core_utils/core_helpers.py:79-89 | a nested metadata of `5`, or equal to the key's own text, makes the lookup raise and gives None |
| CoreHelpers.FirstHit | litellm/litellm_core_utils/core_helpers.py:78-87 | the value under the key in the first level that has it, or None when no level has it |
| CoreHelpers.ParentOtelSpanIsFirstHit | litellm/litellm_core_utils/core_helpers.py:72-89 | when the levels are dicts or missing, the span lookup is the ordered search over `metadata`, `litellm_params.metadata`, then kwargs |
| CoreHelpers.SpanFromLitellmMetadata | litellm/litellm_core_utils/core_helpers.py:80-85 | with no top-level metadata, the span is read from what the metadata helper returns |
| ToolCallRepair.DecodeToolCall | litellm/litellm_core_utils/llm_response_utils.py:152 | a typed call is built only from a dict; its id, function name and arguments are the dict's strings, and its kind is `type`, default `function` |
| ToolCallRepair.StripFunctionsPrefix | litellm/litellm_core_utils/llm_response_utils.py:484-485 | one leading `functions.` is removed; any other name is kept |
| ToolCallRepair.ExpandSentinel | litellm/litellm_core_utils/llm_response_utils.py:481-494 | the inner loop yields the rewritten pseudo-calls, in order, and raises on the first malformed one |
| ToolCallRepair.ExpandCall | litellm/litellm_core_utils/llm_response_utils.py:475-494 | one call's contribution: raises on undecodable arguments, nothing for an ordinary call, the rewritten pseudo-calls for a sentinel |
| ToolCallRepair.Expansions | litellm/litellm_core_utils/llm_response_utils.py:474-494 | one contribution per call, at that call's position |
| ToolCallRepair.CollectReplacements | litellm/litellm_core_utils/llm_response_utils.py:473-494 | the first loop builds the `replacements` dict in insertion order, one entry per sentinel that packs at least one call, or raises |
| ToolCallRepair.CollectStep | litellm/litellm_core_utils/llm_response_utils.py:474-494 | one turn of the first loop either raises for the whole repair or extends the dict built so far |
| ToolCallRepair.ReplacementsFailExtends | litellm/litellm_core_utils/llm_response_utils.py:474-476 | once a call raises, the loop never completes |
| ToolCallRepair.ReplacementsSkip | litellm/litellm_core_utils/llm_response_utils.py:473-494 | calls that contribute nothing add no entry |
| ToolCallRepair.OneReplacementUpTo | litellm/litellm_core_utils/llm_response_utils.py:473-494 | when only one call contributes, the dict holds exactly its entry |
| ToolCallRepair.TwoReplacements | litellm/litellm_core_utils/llm_response_utils.py:473-494 | when only two calls contribute, the dict holds their entries in list order |
| ToolCallRepair.ToolCallList.SpliceAll | litellm/litellm_core_utils/llm_response_utils.py:496-501 | the second loop leaves the list as the entry-by-entry splice with the running shift, including Python's clamped slices |
| ToolCallRepair.HandleInvalidParallelToolCalls | litellm/litellm_core_utils/llm_response_utils.py:461-503 | None for a missing list; otherwise the same list object, rewritten as the repair says; on a raise the list is untouched |
| ToolCallRepair.PlainCallContributesNothing | litellm/litellm_core_utils/llm_response_utils.py:475-477 | an ordinary call with decodable arguments contributes nothing |
| ToolCallRepair.OthersContributeNothing | litellm/litellm_core_utils/llm_response_utils.py:474-477 | every decodable ordinary call in a list contributes nothing |
| ToolCallRepair.RepairWithoutSentinel | litellm/litellm_core_utils/llm_response_utils.py:470-503 | without a sentinel the repair raises exactly when some call's arguments do not decode, and otherwise returns the list unchanged |
| ToolCallRepair.RepairFailsOnUndecodable | litellm/litellm_core_utils/llm_response_utils.py:476 | any call with undecodable arguments makes the repair raise, sentinel or not |
| ToolCallRepair.RepairSingleSentinel | litellm/litellm_core_utils/llm_response_utils.py:474-503 | one sentinel packing k ≥ 1 calls is replaced in place by them: the calls before it, then the k calls, then the calls after it |
| ToolCallRepair.RepairKeepsEmptySentinel | litellm/litellm_core_utils/llm_response_utils.py:481-497 | a sentinel with an empty `tool_uses` adds no entry, and the list comes back with the sentinel in it |
| ToolCallRepair.ExpansionContents | litellm/litellm_core_utils/llm_response_utils.py:481-494 | rewritten call j has id `<id>_<j>`, type `function`, the recipient without `functions.`, and as arguments the JSON encoding of the pseudo-call's `parameters`, which decodes back to them for a round-tripping codec |
| ToolCallRepair.ExpansionIdsDistinct | litellm/litellm_core_utils/llm_response_utils.py:488 | the rewritten calls of one sentinel have pairwise distinct ids |
| ToolCallRepair.RepairTwoSentinelsAsWritten | litellm/litellm_core_utils/llm_response_utils.py:496-501 | with two sentinels, the second stays in the result at its shifted position while the length is that of a correct splice, so an ordinary call is lost instead |
| ToolCallRepair.RepairAppliesReplacements | litellm/litellm_core_utils/llm_response_utils.py:496-503 | once the dict is built, the repair's result is the splice of its entries |
| ToolCallRepair.SpliceTwiceAsWritten | litellm/litellm_core_utils/llm_response_utils.py:496-501 | two splices with `shift += len` land the second one position too far |
| Streaming.ReindexToolCalls | litellm/litellm_core_utils/llm_response_utils.py:355-359 | each raw tool call gets its position as `index` unless it has one; a non-dict raises |
| Streaming.StreamChoices | litellm/litellm_core_utils/llm_response_utils.py:414-436 | the choices loop of both adapters, equal to the choice-by-choice definition, raising on the first bad choice |
| Streaming.BuildChunk | litellm/litellm_core_utils/llm_response_utils.py:407-455 | the chunk either adapter yields: choices, usage, and the top-level fields |
| Streaming.ConvertToStreamingResponse | litellm/litellm_core_utils/llm_response_utils.py:407-455 | the synchronous adapter yields the chunk of the synchronous definition, and raises without a payload |
| Streaming.ConvertToStreamingResponseAsync | litellm/litellm_core_utils/llm_response_utils.py:321-404 | the asynchronous adapter yields the chunk of the asynchronous definition |
| Streaming.StreamingChoicesShape | litellm/litellm_core_utils/llm_response_utils.py:414-436 | one choice per raw choice, at its position; role copied with no default; content and function call copied; the tool calls are the message's, reindexed by the asynchronous adapter; finish reason falls back to `finish_details` only; `enhancements` only in the synchronous adapter |
| Streaming.StreamingTopLevel | litellm/litellm_core_utils/llm_response_utils.py:438-454 | usage is set exactly when present and non-null, each count defaulting to 0; `id`, `created`, `system_fingerprint` and `model` are copied exactly when present |
| Streaming.ReindexedCalls | litellm/litellm_core_utils/llm_response_utils.py:348-359 | reindexed calls: one dict per raw call, an existing `index` kept, a missing one set to the position, other keys unchanged |
| Streaming.StreamingVariantsAgree | litellm/litellm_core_utils/llm_response_utils.py:345-401 | whatever the asynchronous adapter accepts the synchronous one accepts, and the chunks agree on everything but tool calls and enhancements |
| ResponseAssembler.DecodeToolCalls | litellm/litellm_core_utils/llm_response_utils.py:150-153 | each raw tool call is typed in order; the first that cannot be typed raises |
| ResponseAssembler.BuildChoice | litellm/litellm_core_utils/llm_response_utils.py:146-196 | one choice, equal to the choice definition: repaired tool calls, JSON mode, role default, finish-reason fallbacks |
| ResponseAssembler.BuildChoices | litellm/litellm_core_utils/llm_response_utils.py:140-197 | the choices loop, equal to the choice-by-choice definition |
| ResponseAssembler.CompletionChoicesShape | litellm/litellm_core_utils/llm_response_utils.py:146-196 | the choices succeed exactly when every raw choice does; then there is one per raw choice, at its position, described field by field |
| ResponseAssembler.ChoiceDescribed | litellm/litellm_core_utils/llm_response_utils.py:161-195 | a built choice holds the raw choice's fields: JSON-mode content with `stop`, or the message with role default and `finish_reason`/`finish_details`/`stop` fallbacks |
| ResponseAssembler.RoleIsRequired | litellm/litellm_core_utils/llm_response_utils.py:178 | outside JSON mode a message without `role` makes the choice raise |
| ResponseAssembler.FinishReasonIsNotMapped | litellm/litellm_core_utils/llm_response_utils.py:183 | `end_turn` is handed to `Choices` as `end_turn`, although the finish-reason table maps it to `stop` |
| ResponseAssembler.JsonModeSingleCall | litellm/litellm_core_utils/llm_response_utils.py:163-174 | in JSON mode a single ordinary call becomes the choice's content, with finish reason `stop` |
| ResponseAssembler.SingleToolCallKept | litellm/litellm_core_utils/llm_response_utils.py:148-159 | a lone ordinary call with decodable arguments comes through typing and repair as itself |
| ResponseAssembler.PlainToolCallsKept | litellm/litellm_core_utils/llm_response_utils.py:148-182 | without JSON mode, sentinel-free tool calls are kept, typed, in order |
| ResponseAssembler.FirstSegment | litellm/litellm_core_utils/llm_response_utils.py:222-224 | `split("/")[0]`: the longest prefix without '/', followed by '/' if shorter than the string |
| ResponseAssembler.MergeModelAdopts | litellm/litellm_core_utils/llm_response_utils.py:216-217 | an unset model adopts the payload's |
| ResponseAssembler.MergeModelOnStrings | litellm/litellm_core_utils/llm_response_utils.py:218-227 | a model with '/' becomes its provider segment, '/', and the payload's model; without '/' or with a null payload model it stays |
| ResponseAssembler.MergeModelExample | litellm/litellm_core_utils/llm_response_utils.py:215-227 | `azure/gpt-4` merged with `gpt-4-0613` gives `azure/gpt-4-0613` |
| ResponseAssembler.MergeModelIsStable | litellm/litellm_core_utils/llm_response_utils.py:218-227 | merging the same payload model again changes nothing |
| ResponseAssembler.ModelResponse.SetTopLevelFields | litellm/litellm_core_utils/llm_response_utils.py:202-213 | `created`, `id` and `system_fingerprint` set when present, falsy ones replaced by the clock or a fresh id |
| ResponseAssembler.ModelResponse.MergeModelName | litellm/litellm_core_utils/llm_response_utils.py:215-227 | the model merge in place, succeeding exactly when the merge does; nothing changes on a raise |
| ResponseAssembler.ModelResponse.MergeHiddenParams | litellm/litellm_core_utils/llm_response_utils.py:235-241 | the hidden parameters updated with the bag; the headers stored when given |
| ResponseAssembler.ModelResponse.CopyExtensionFields | litellm/litellm_core_utils/llm_response_utils.py:243-247 | every payload key outside the model's fields and `usage` is set on the object; nothing else changes |
| ResponseAssembler.ModelResponse.AssembleTail | litellm/litellm_core_utils/llm_response_utils.py:199-247 | usage, top-level fields, model merge, hidden parameters, headers and extension fields, in order, stopping at the first raise |
| ResponseAssembler.ModelResponse.Assemble | litellm/litellm_core_utils/llm_response_utils.py:140-249 | the completion branch's writes to the object, and whether it got to the end |
| ResponseAssembler.FinishedContents | litellm/litellm_core_utils/llm_response_utils.py:235-247 | the old hidden parameters are updated with the bag; headers stored when given; extension fields copied over the old ones; no model field among them; nothing else changes |
| ResponseAssembler.CompletionEndsFinished | litellm/litellm_core_utils/llm_response_utils.py:140-249 | a completion that gets to the end converted every choice, had a dict usage and a mergeable model, and ends with the last steps applied |
| ResponseAssembler.CompletionAssembled | litellm/litellm_core_utils/llm_response_utils.py:140-249 | after a completion that got to the end: the converted choices, and `usage`, `created`, `id`, `system_fingerprint` and the model as the payload says |
| ResponseAssembler.CompletionFailureKeepsEarlierWrites | litellm/litellm_core_utils/llm_response_utils.py:140-249 | a raise before `choices` writes nothing; a later raise keeps the earlier writes, and the hidden parameters, headers and extension fields are not reached |
| ResponseAssembler.ImageResponse.Assemble | litellm/litellm_core_utils/llm_response_utils.py:272-279 | `created` and `data` copied when present, and the bag itself attached by reference |
| ResponseAssembler.CopiedKeysContents | litellm/litellm_core_utils/llm_response_utils.py:295-298 | the loop over keys copies exactly the keys present, with their values |
| ResponseAssembler.OptionalFieldsContents | litellm/litellm_core_utils/llm_response_utils.py:295-298 | a transcription gets exactly those of `language`, `task`, `duration`, `words`, `segments` that are present |
| ResponseAssembler.TranscriptionResponse.Assemble | litellm/litellm_core_utils/llm_response_utils.py:292-304 | `text` and the optional keys copied when present, the bag attached by reference, and the headers stored when given |
| ResponseAssembler.ErrorInPayload | litellm/litellm_core_utils/llm_response_utils.py:109-128 | an error is raised exactly when the payload has a non-null `error` |
| ResponseAssembler.UpstreamErrorArgs | litellm/litellm_core_utils/llm_response_utils.py:109-128 | the raised error's status is the error's `code`, else 422; its message is the error's `message`, JSON-encoded when a dict and `str` otherwise, else the default text |
| ResponseAssembler.UpstreamErrorDefaults | litellm/litellm_core_utils/llm_response_utils.py:115-124 | status 422 and the default message unless the error is a dict with `code` and `message`; a non-dict error gives exactly the defaults |
| ResponseAssembler.UpstreamErrorExample | litellm/litellm_core_utils/llm_response_utils.py:109-128 | `{"code": 400, "message": "bad request"}` raises with status 400 and message `bad request` |
| ResponseAssembler.PrepareHiddenParams | litellm/litellm_core_utils/llm_response_utils.py:101-107 | a non-empty dict passed in is itself the bag and is written in place; otherwise a fresh dict is, and the caller's dict is unchanged; the bag holds the header entry when headers are given |
| ResponseAssembler.ConvertCompletion | litellm/litellm_core_utils/llm_response_utils.py:131-249 | no payload or no target raises; `stream` hands the payload to the synchronous adapter and leaves the target alone; otherwise the object holds the assembled state |
| ResponseAssembler.ConvertImage | litellm/litellm_core_utils/llm_response_utils.py:262-281 | no payload raises; otherwise the target, or a fresh image, is filled and returned |
| ResponseAssembler.ConvertTranscription | litellm/litellm_core_utils/llm_response_utils.py:282-306 | no payload raises; otherwise the target, or a fresh transcription, is filled and returned |
| ResponseAssembler.CheckAndDispatch | litellm/litellm_core_utils/llm_response_utils.py:109-314 | the payload error is checked before any branch and leaves the target alone; a target of another type runs no branch; otherwise the kind's branch runs |
| ResponseAssembler.Dispatch | litellm/litellm_core_utils/llm_response_utils.py:130-314 | the branch for the kind runs, and embedding and rerank are delegated |
| ResponseAssembler.ConvertToModelResponseObject | litellm/litellm_core_utils/llm_response_utils.py:78-318 | the header bag is prepared first; a payload error raises unwrapped and leaves the target alone; a kind whose target has another type returns nothing; otherwise the branch's result |

## Left out

- Delivery through generators and `await`: each streaming adapter is a method that returns the one chunk its generator would yield. The asynchronous adapter's suspension after the yield is not modelled. In the completion branch, `stream` returns the adapter's result, which a caller sees only when iterating.
- The asynchronous adapter writes the reindexed tool calls back into the caller's payload dict. The model returns them in the chunk and does not capture that write to the input.
- `_response_ms`: the latency is computed from timestamps of `datetime` type, with floating point. It is not modelled.
- `json.loads`, `json.dumps` and `str` are the abstract `Codec` parameter. `RoundTrips` states that decoding undoes encoding wherever a proof relies on it.
- `time.time()` and `uuid.uuid4()` are the `Env` parameter (a clock value and a fresh id).
- The pydantic constructors (`ChatCompletionMessageToolCall`, `ChatCompletionDeltaToolCall`, `Message`, `Choices`, `StreamingChoices`, `Delta`, `Usage`, the response classes) are not part of this model. The model's choice carries exactly the values the assembler passes to them, so any normalisation those constructors apply (such as mapping a finish reason inside `Choices`) is not captured. Their defaults are `Null`, and a model's own field set is the `fields` parameter.
- ToolCallRepair.DecodeToolCall: it accepts exactly the dicts with string `id`, `name` and `arguments`, which may be stricter or looser than the real constructor. Typing the `usage` dict into `Usage` is likewise reduced to requiring a dict.
- The embedding and rerank branches hand off to converters that are not part of this model. They are the `Delegated` outcome.
- The text of the wrapped error, and the stack trace and call arguments it captures: every such failure is `WrappedError`.
- Python's attribute semantics: `setattr` of an extension field whose name is a private or declared attribute is treated as an ordinary field write.
- `get_audio_file_name` in core_helpers.py is outside the modelled core.
- CoreHelpers.RemoveIndexFromToolCalls: it requires every message's `tool_calls` to be a list of dicts, and the loose tool-call list to be a different array from the message list. On other inputs the code raises midway after partial removal, and that path is not modelled.
- CoreHelpers.ParentOtelSpanIsFirstHit: the reference search is stated for levels that are dicts or missing. The other shapes (the raise-and-return-None paths and the fall-through past a string or list metadata) are stated by `ParentOtelSpanFromKwargs`'s own contract, one clause per path, rather than by the search.
- Aliasing between the payload and the objects written is not modelled: payload values are immutable `Json` values.
