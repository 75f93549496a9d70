/** The conversion of a decoded provider payload into the response object the
    caller handed in: the upstream-error check, then, inside one wrapping
    error handler, the completion, image-generation and audio-transcription
    branches (the embedding and rerank branches hand off to converters that
    are not part of this model). */
module ResponseAssembler {
  import opened JsonValues
  import Headers
  import R = ToolCallRepair
  import Streaming
  import CoreHelpers

  // ---------------------------------------------------------------------
  // Completion choices

  /** The message of a completion choice: the full message, or the bare
      content of JSON mode. */
  datatype Message =
    | Full(content: Json, role: Json, functionCall: Json, toolCalls: Option<seq<R.ToolCall>>, audio: Json)
    | ContentOnly(text: string)

  datatype Choice = Choice(finishReason: Json, index: nat, message: Message, logprobs: Json, enhancements: Json)

  /** A message's `tool_calls`, typed and then repaired; `None` when absent
      or null. */
  function MessageToolCalls(raw: Json, codec: Codec): Result<Option<seq<R.ToolCall>>> {
    if raw.Null? then Ok(None)
    else
      match RecordElements(raw)
      case Fail => Fail
      case Ok(raws) =>
        match MapIndexed(raws, |raws|, R.DecodeToolCall)
        case Fail => Fail
        case Ok(typed) =>
          match R.Repair(typed, codec)
          case Fail => Fail
          case Ok(fixed) => Ok(Some(fixed))
  }

  /** `finish_reason`, else a truthy `finish_details`, else "stop"; no mapping. */
  function CompletionFinishReason(choice: map<string, Json>): Json {
    var reason := Get(choice, "finish_reason");
    if reason.Null? then Or(Get(choice, "finish_details"), Str("stop")) else reason
  }

  /** JSON mode takes over when it is requested and exactly one tool call
      is left after the repair. */
  predicate JsonModeApplies(jsonMode: bool, tools: Option<seq<R.ToolCall>>) {
    jsonMode && tools.Some? && |tools.value| == 1
  }

  /** One completion choice. A choice that is not a dict or has no dict under
      `message` raises, and so does a message without `role` outside JSON
      mode; a falsy role becomes "assistant". */
  function CompletionChoice(raw: Json, position: nat, jsonMode: bool, codec: Codec): Result<Choice> {
    if !raw.Obj? || "message" !in raw.m || !raw.m["message"].Obj? then Fail
    else
      var msg := raw.m["message"].m;
      match MessageToolCalls(Get(msg, "tool_calls"), codec)
      case Fail => Fail
      case Ok(tools) =>
        if JsonModeApplies(jsonMode, tools) then
          Ok(Choice(Str("stop"), position, ContentOnly(tools.value[0].func.arguments),
                    Get(raw.m, "logprobs"), Get(raw.m, "enhancements")))
        else if "role" !in msg then Fail
        else
          Ok(Choice(
            CompletionFinishReason(raw.m),
            position,
            Full(Get(msg, "content"), Or(msg["role"], Str("assistant")), Get(msg, "function_call"), tools, Get(msg, "audio")),
            Get(raw.m, "logprobs"),
            Get(raw.m, "enhancements")))
  }

  function CompletionChoiceOf(jsonMode: bool, codec: Codec): (Json, nat) -> Result<Choice> {
    (raw: Json, position: nat) => CompletionChoice(raw, position, jsonMode, codec)
  }

  function CompletionChoices(raws: seq<Json>, jsonMode: bool, codec: Codec): Result<seq<Choice>> {
    MapIndexed(raws, |raws|, CompletionChoiceOf(jsonMode, codec))
  }

  /** The loop that types each raw tool call. */
  method DecodeToolCalls(raws: seq<Json>) returns (r: Result<seq<R.ToolCall>>)
    ensures r == MapIndexed(raws, |raws|, R.DecodeToolCall)
  {
    var typed: seq<R.ToolCall> := [];
    for i := 0 to |raws|
      invariant MapIndexed(raws, i, R.DecodeToolCall) == Ok(typed)
    {
      var tc := R.DecodeToolCall(raws[i], i);
      if tc.Fail? {
        MapIndexedFailExtends(raws, i + 1, |raws|, R.DecodeToolCall);
        return Fail;
      }
      typed := typed + [tc.value];
    }
    r := Ok(typed);
  }

  /** The body of the choices loop for one choice. */
  method BuildChoice(raw: Json, position: nat, jsonMode: bool, codec: Codec) returns (r: Result<Choice>)
    ensures r == CompletionChoice(raw, position, jsonMode, codec)
  {
    if !raw.Obj? || "message" !in raw.m || !raw.m["message"].Obj? {
      return Fail;
    }
    var msg := raw.m["message"].m;
    var tools: Option<seq<R.ToolCall>> := None;
    var rawTools := Get(msg, "tool_calls");
    if !rawTools.Null? {
      var elements := RecordElements(rawTools);
      if elements.Fail? {
        return Fail;
      }
      var typed := DecodeToolCalls(elements.value);
      if typed.Fail? {
        return Fail;
      }
      var list := new R.ToolCallList(typed.value);
      var repaired := R.HandleInvalidParallelToolCalls(list, codec);
      if repaired.RepairFailed? {
        return Fail;
      }
      tools := Some(list.items);
    }
    if jsonMode && tools.Some? && |tools.value| == 1 {
      return Ok(Choice(Str("stop"), position, ContentOnly(tools.value[0].func.arguments),
                       Get(raw.m, "logprobs"), Get(raw.m, "enhancements")));
    }
    if "role" !in msg {
      return Fail;
    }
    var message := Full(Get(msg, "content"), Or(msg["role"], Str("assistant")), Get(msg, "function_call"), tools, Get(msg, "audio"));
    var finishReason := Get(raw.m, "finish_reason");
    if finishReason.Null? {
      finishReason := Or(Get(raw.m, "finish_details"), Str("stop"));
    }
    r := Ok(Choice(finishReason, position, message, Get(raw.m, "logprobs"), Get(raw.m, "enhancements")));
  }

  /** The choices loop. */
  method BuildChoices(raws: seq<Json>, jsonMode: bool, codec: Codec) returns (r: Result<seq<Choice>>)
    ensures r == CompletionChoices(raws, jsonMode, codec)
  {
    var choiceList: seq<Choice> := [];
    for idx := 0 to |raws|
      invariant MapIndexed(raws, idx, CompletionChoiceOf(jsonMode, codec)) == Ok(choiceList)
    {
      var choice := BuildChoice(raws[idx], idx, jsonMode, codec);
      if choice.Fail? {
        MapIndexedFailExtends(raws, idx + 1, |raws|, CompletionChoiceOf(jsonMode, codec));
        return Fail;
      }
      choiceList := choiceList + [choice.value];
    }
    r := Ok(choiceList);
  }

  // ---------------------------------------------------------------------
  // Model-name merge

  /** `s.split("/")[0]`: everything before the first '/'. */
  function FirstSegment(s: string): (r: string)
    ensures IsPrefix(r, s)
    ensures '/' !in r
    ensures |r| < |s| ==> s[|r|] == '/'
    ensures '/' !in s ==> r == s
    ensures '/' in s ==> |r| < |s|
    decreases |s|
  {
    if s == [] || s[0] == '/' then []
    else
      var rest := FirstSegment(s[1..]);
      assert s == [s[0]] + s[1..];
      [s[0]] + rest
  }

  /** The target's model after the payload's `model` is merged in: an unset
      model adopts the payload's; a model with a '/' keeps its provider
      segment in front of a non-null payload model; any other model stays.
      `"/" in model` raises on a value that is neither a string, a list nor a
      dict, and the split and the concatenation raise unless both are strings. */
  function MergeModel(target: Json, incoming: Json): Result<Json> {
    if target.Null? then Ok(incoming)
    else
      match Contains(target, "/")
      case Fail => Fail
      case Ok(hasSlash) =>
        if !hasSlash || incoming.Null? then Ok(target)
        else if target.Str? && incoming.Str? then Ok(Str(FirstSegment(target.s) + "/" + incoming.s))
        else Fail
  }

  // ---------------------------------------------------------------------
  // The completion branch

  /** `time.time()` and `uuid.uuid4()` as values supplied by the caller. */
  datatype Env = Env(now: int, freshId: string)

  /** Field names every response model declares; the model's full field set is
      a parameter. */
  const CoreFieldNames: set<string> := {"id", "choices", "created", "model", "object", "system_fingerprint"}

  /** Every field of a completion response the branch writes. */
  datatype ResponseState = ResponseState(
    id: Json,
    created: Json,
    model: Json,
    systemFingerprint: Json,
    choices: seq<Choice>,
    usage: Option<map<string, Json>>,
    hiddenParams: Option<map<string, Json>>,
    responseHeaders: Option<map<string, string>>,
    extra: map<string, Json>)

  predicate UsagePresent(payload: map<string, Json>) {
    "usage" in payload && !payload["usage"].Null?
  }

  /** The payload keys that are neither model fields nor `usage`, with their values. */
  function ExtensionFields(payload: map<string, Json>, fields: set<string>): map<string, Json> {
    map k | k in payload && k !in fields && k != "usage" :: payload[k]
  }

  /** `created` and `id`, each replaced by the clock or a fresh id when falsy,
      and `system_fingerprint`, each only when the key is present. */
  function WithTopLevelFields(st: ResponseState, payload: map<string, Json>, env: Env): ResponseState {
    var s1 := if "created" in payload then st.(created := Or(payload["created"], Num(env.now))) else st;
    var s2 := if "id" in payload then s1.(id := Or(payload["id"], Str(env.freshId))) else s1;
    if "system_fingerprint" in payload then s2.(systemFingerprint := payload["system_fingerprint"]) else s2
  }

  /** The last steps, which cannot raise: hidden parameters merged in,
      headers stored, extension fields copied. */
  function Finished(st: ResponseState, payload: map<string, Json>, hidden: map<string, Json>,
                    headers: Option<map<string, string>>, fields: set<string>): ResponseState
  {
    st.(hiddenParams := Some(st.hiddenParams.GetOr(map[]) + hidden),
        responseHeaders := if headers.Some? then headers else st.responseHeaders,
        extra := st.extra + ExtensionFields(payload, fields))
  }

  /** The state the completion branch leaves, and whether it got to the end.
      A raise keeps every assignment made before it. */
  datatype Assembly = Assembly(state: ResponseState, ok: bool)

  function AssembleCompletion(st: ResponseState, payload: map<string, Json>, hidden: map<string, Json>,
                              headers: Option<map<string, string>>, jsonMode: bool, env: Env,
                              codec: Codec, fields: set<string>): Assembly
  {
    if "choices" !in payload then Assembly(st, false)
    else
      match RecordElements(payload["choices"])
      case Fail => Assembly(st, false)
      case Ok(raws) =>
        match CompletionChoices(raws, jsonMode, codec)
        case Fail => Assembly(st, false)
        case Ok(choices) => CompletionTail(st.(choices := choices), payload, hidden, headers, env, fields)
  }

  /** The steps after `choices` is assigned. */
  function CompletionTail(st: ResponseState, payload: map<string, Json>, hidden: map<string, Json>,
                          headers: Option<map<string, string>>, env: Env, fields: set<string>): Assembly
  {
    if UsagePresent(payload) && !payload["usage"].Obj? then Assembly(st, false)
    else
      var s2 := if UsagePresent(payload) then st.(usage := Some(payload["usage"].m)) else st;
      var s3 := WithTopLevelFields(s2, payload, env);
      if "model" !in payload then Assembly(Finished(s3, payload, hidden, headers, fields), true)
      else
        match MergeModel(s3.model, payload["model"])
        case Fail => Assembly(s3, false)
        case Ok(model) => Assembly(Finished(s3.(model := model), payload, hidden, headers, fields), true)
  }

  /** The caller's completion response object. */
  class ModelResponse {
    var id: Json
    var created: Json
    var model: Json
    var systemFingerprint: Json
    var choices: seq<Choice>
    var usage: Option<map<string, Json>>
    var hiddenParams: Option<map<string, Json>>
    var responseHeaders: Option<map<string, string>>
    var extra: map<string, Json>

    function State(): ResponseState
      reads this
    {
      ResponseState(id, created, model, systemFingerprint, choices, usage, hiddenParams, responseHeaders, extra)
    }

    constructor (st: ResponseState)
      ensures State() == st
    {
      id := st.id;
      created := st.created;
      model := st.model;
      systemFingerprint := st.systemFingerprint;
      choices := st.choices;
      usage := st.usage;
      hiddenParams := st.hiddenParams;
      responseHeaders := st.responseHeaders;
      extra := st.extra;
    }

    /** The `setattr` loop over the payload's items. */
    method CopyExtensionFields(payload: map<string, Json>, fields: set<string>)
      modifies this
      ensures State() == old(State()).(extra := old(extra) + ExtensionFields(payload, fields))
    {
      ghost var before := extra;
      var remaining := payload.Keys;
      while remaining != {}
        invariant remaining <= payload.Keys
        invariant State() == old(State()).(extra := extra)
        invariant extra == before + map k | k in payload.Keys - remaining && k !in fields && k != "usage" :: payload[k]
        decreases remaining
      {
        var k :| k in remaining;
        if k !in fields && k != "usage" {
          extra := extra[k := payload[k]];
        }
        remaining := remaining - {k};
      }
      assert payload.Keys - remaining == payload.Keys;
    }

    /** `created`, `id` and `system_fingerprint`. */
    method SetTopLevelFields(payload: map<string, Json>, env: Env)
      modifies this
      ensures State() == WithTopLevelFields(old(State()), payload, env)
    {
      if "created" in payload {
        created := Or(payload["created"], Num(env.now));
      }
      if "id" in payload {
        id := Or(payload["id"], Str(env.freshId));
      }
      if "system_fingerprint" in payload {
        systemFingerprint := payload["system_fingerprint"];
      }
    }

    /** The model-name merge; on a raise the model is left as it was. */
    method MergeModelName(incoming: Json) returns (ok: bool)
      modifies this
      ensures ok <==> MergeModel(old(model), incoming).Ok?
      ensures State() == if ok then old(State()).(model := MergeModel(old(model), incoming).value) else old(State())
    {
      if model.Null? {
        model := incoming;
        return true;
      }
      var hasSlash := Contains(model, "/");
      if hasSlash.Fail? {
        return false;
      }
      if hasSlash.value && !incoming.Null? {
        if !model.Str? || !incoming.Str? {
          return false;
        }
        model := Str(FirstSegment(model.s) + "/" + incoming.s);
      }
      ok := true;
    }

    /** Hidden parameters merged in and headers stored. */
    method MergeHiddenParams(hidden: map<string, Json>, headers: Option<map<string, string>>)
      modifies this
      ensures State() == old(State()).(hiddenParams := Some(old(hiddenParams).GetOr(map[]) + hidden),
                                       responseHeaders := if headers.Some? then headers else old(responseHeaders))
    {
      hiddenParams := Some(hiddenParams.GetOr(map[]) + hidden);
      if headers.Some? {
        responseHeaders := headers;
      }
    }

    /** The steps after `choices` is assigned. */
    method AssembleTail(payload: map<string, Json>, hidden: map<string, Json>, headers: Option<map<string, string>>,
                        env: Env, fields: set<string>) returns (ok: bool)
      modifies this
      ensures Assembly(State(), ok) == CompletionTail(old(State()), payload, hidden, headers, env, fields)
    {
      if "usage" in payload && !payload["usage"].Null? {
        if !payload["usage"].Obj? {
          return false;
        }
        usage := Some(payload["usage"].m);
      }
      SetTopLevelFields(payload, env);
      if "model" in payload {
        ok := MergeModelName(payload["model"]);
        if !ok {
          return false;
        }
      }
      MergeHiddenParams(hidden, headers);
      CopyExtensionFields(payload, fields);
      ok := true;
    }

    /** The completion branch, once payload and target are known to exist. */
    method Assemble(payload: map<string, Json>, hidden: map<string, Json>, headers: Option<map<string, string>>,
                    jsonMode: bool, env: Env, codec: Codec, fields: set<string>) returns (ok: bool)
      requires CoreFieldNames <= fields
      modifies this
      ensures Assembly(State(), ok) == AssembleCompletion(old(State()), payload, hidden, headers, jsonMode, env, codec, fields)
    {
      if "choices" !in payload {
        return false;
      }
      var raws := RecordElements(payload["choices"]);
      if raws.Fail? {
        return false;
      }
      var choiceList := BuildChoices(raws.value, jsonMode, codec);
      if choiceList.Fail? {
        return false;
      }
      choices := choiceList.value;
      ok := AssembleTail(payload, hidden, headers, env, fields);
    }
  }

  // ---------------------------------------------------------------------
  // The image-generation and audio-transcription branches

  /** An image response. The defaults of its constructor are not part of
      this model; `Null` stands for them. Hidden parameters are held by
      reference. */
  class ImageResponse {
    var created: Json
    var data: Json
    var hiddenParams: Headers.HiddenParams?

    constructor ()
      ensures created == Null && data == Null && hiddenParams == null
    {
      created := Null;
      data := Null;
      hiddenParams := null;
    }

    method Assemble(payload: map<string, Json>, hidden: Headers.HiddenParams)
      modifies this
      ensures created == (if "created" in payload then payload["created"] else old(created))
      ensures data == (if "data" in payload then payload["data"] else old(data))
      ensures hiddenParams == hidden
    {
      if "created" in payload {
        created := payload["created"];
      }
      if "data" in payload {
        data := payload["data"];
      }
      hiddenParams := hidden;
    }
  }

  /** The keys a transcription copies only when present. */
  const OptionalTranscriptionKeys: seq<string> := ["language", "task", "duration", "words", "segments"]

  /** What the loop over `keys` copies: each key present in the payload,
      with its value. */
  function CopiedKeys(payload: map<string, Json>, keys: seq<string>): map<string, Json>
    decreases |keys|
  {
    if keys == [] then map[]
    else
      var last := keys[|keys| - 1];
      var prev := CopiedKeys(payload, keys[..|keys| - 1]);
      if last in payload then prev[last := payload[last]] else prev
  }

  lemma {:induction false} CopiedKeysContents(payload: map<string, Json>, keys: seq<string>)
    ensures forall k :: k in CopiedKeys(payload, keys) <==> k in payload && k in keys
    ensures forall k :: k in CopiedKeys(payload, keys) ==> CopiedKeys(payload, keys)[k] == payload[k]
    decreases |keys|
  {
    if keys != [] {
      var init := keys[..|keys| - 1];
      CopiedKeysContents(payload, init);
      assert keys == init + [keys[|keys| - 1]];
    }
  }

  /** The optional fields present in the payload. */
  function OptionalFields(payload: map<string, Json>): map<string, Json> {
    CopiedKeys(payload, OptionalTranscriptionKeys)
  }

  /** A transcription response; `optional` holds the optional fields. */
  class TranscriptionResponse {
    var text: Json
    var optional: map<string, Json>
    var hiddenParams: Headers.HiddenParams?
    var responseHeaders: Option<map<string, string>>

    constructor ()
      ensures text == Null && optional == map[] && hiddenParams == null && responseHeaders == None
    {
      text := Null;
      optional := map[];
      hiddenParams := null;
      responseHeaders := None;
    }

    method Assemble(payload: map<string, Json>, hidden: Headers.HiddenParams, headers: Option<map<string, string>>)
      modifies this
      ensures text == (if "text" in payload then payload["text"] else old(text))
      ensures optional == old(optional) + OptionalFields(payload)
      ensures hiddenParams == hidden
      ensures responseHeaders == (if headers.Some? then headers else old(responseHeaders))
    {
      if "text" in payload {
        text := payload["text"];
      }
      for i := 0 to |OptionalTranscriptionKeys|
        invariant text == (if "text" in payload then payload["text"] else old(text))
        invariant responseHeaders == old(responseHeaders)
        invariant optional == old(optional) + CopiedKeys(payload, OptionalTranscriptionKeys[..i])
      {
        var key := OptionalTranscriptionKeys[i];
        assert OptionalTranscriptionKeys[..i + 1][..i] == OptionalTranscriptionKeys[..i];
        if key in payload {
          optional := optional[key := payload[key]];
        }
      }
      assert OptionalTranscriptionKeys[..|OptionalTranscriptionKeys|] == OptionalTranscriptionKeys;
      hiddenParams := hidden;
      if headers.Some? {
        responseHeaders := headers;
      }
    }
  }

  // ---------------------------------------------------------------------
  // The entry point

  datatype ResponseKind = CompletionKind | EmbeddingKind | ImageKind | TranscriptionKind | RerankKind

  /** The response object passed in, by its type. The embedding and rerank
      response objects are not part of this model. */
  datatype Target =
    | NoTarget
    | ModelTarget(response: ModelResponse)
    | ImageTarget(image: ImageResponse)
    | TranscriptionTarget(transcription: TranscriptionResponse)
    | EmbeddingTarget
    | RerankTarget

  function TargetObjects(target: Target): set<object> {
    match target
    case ModelTarget(r) => {r}
    case ImageTarget(i) => {i}
    case TranscriptionTarget(t) => {t}
    case _ => {}
  }

  /** A branch runs when the target is absent or of the kind's own type. */
  predicate Fits(kind: ResponseKind, target: Target) {
    target.NoTarget? ||
    match kind
    case CompletionKind => target.ModelTarget?
    case EmbeddingKind => target.EmbeddingTarget?
    case ImageKind => target.ImageTarget?
    case TranscriptionKind => target.TranscriptionTarget?
    case RerankKind => target.RerankTarget?
  }

  datatype ErrorArgs = ErrorArgs(status: Json, message: string)

  /** The error raised for a payload carrying a non-null `error`: status 422
      unless the error is a dict with a `code`; the message is the default
      text unless the error is a dict with a `message`, which is then
      JSON-encoded when it is itself a dict and rendered with `str` otherwise. */
  function ErrorInPayload(payload: Option<map<string, Json>>, codec: Codec): (r: Option<ErrorArgs>)
    ensures r.Some? <==> payload.Some? && "error" in payload.value && !payload.value["error"].Null?
  {
    if payload.None? || "error" !in payload.value || payload.value["error"].Null? then None
    else
      var e := payload.value["error"];
      Some(ErrorArgs(
        if e.Obj? && "code" in e.m then e.m["code"] else Num(422),
        if e.Obj? && "message" in e.m then
          (if e.m["message"].Obj? then codec.encode(e.m["message"]) else PyStr(codec, e.m["message"]))
        else "Error in response object"))
  }

  datatype Outcome =
    | UpstreamError(error: ErrorArgs)
    | WrappedError
    | Completion(response: ModelResponse)
    | Streamed(chunk: Result<Streaming.StreamChunk>)
    | Image(image: ImageResponse)
    | Transcription(transcription: TranscriptionResponse)
    | Delegated(kind: ResponseKind)
    | NoResult

  function GivenHidden(hidden: Headers.HiddenParams?): map<string, Json>
    reads hidden
  {
    if hidden == null then map[] else hidden.entries
  }

  /** The contents of the hidden-parameter bag once the headers are set. */
  function BagEntries(given: map<string, Json>, headers: Option<map<string, string>>): map<string, Json> {
    if headers.Some? then given["additional_headers" := Headers.HeaderBag(headers.value)] else given
  }

  /** `hidden_params or {}`, then the headers: a non-empty dict passed in is
      itself the bag and is written in place; otherwise a fresh dict is the
      bag and the one passed in, if any, stays as it was. */
  twostate predicate BagPrepared(hidden: Headers.HiddenParams?, headers: Option<map<string, string>>, new bag: Headers.HiddenParams)
    reads hidden, bag
  {
    (hidden != null && old(hidden.entries) != map[] ==> bag == hidden) &&
    (!(hidden != null && old(hidden.entries) != map[]) ==>
      fresh(bag) && (hidden != null ==> hidden.entries == old(hidden.entries))) &&
    bag.entries == BagEntries(old(GivenHidden(hidden)), headers)
  }

  method PrepareHiddenParams(hidden: Headers.HiddenParams?, headers: Option<map<string, string>>)
    returns (bag: Headers.HiddenParams)
    modifies hidden
    ensures BagPrepared(hidden, headers, bag)
  {
    if hidden != null && hidden.entries != map[] {
      bag := hidden;
    } else {
      bag := new Headers.HiddenParams(map[]);
    }
    if headers.Some? {
      var same := Headers.SetHeadersInHiddenParams(bag, headers.value);
      bag := same;
    }
  }

  /** The fields of the target object, if any, as they stand. */
  datatype Snapshot =
    | ModelSnapshot(state: ResponseState)
    | ImageSnapshot(created: Json, data: Json, hiddenParams: Headers.HiddenParams?)
    | TranscriptionSnapshot(text: Json, optional: map<string, Json>, hiddenParams: Headers.HiddenParams?,
                            responseHeaders: Option<map<string, string>>)
    | NoSnapshot

  function SnapshotOf(target: Target): (snap: Snapshot)
    reads TargetObjects(target)
    ensures target.ModelTarget? <==> snap.ModelSnapshot?
    ensures target.ImageTarget? <==> snap.ImageSnapshot?
    ensures target.TranscriptionTarget? <==> snap.TranscriptionSnapshot?
  {
    match target
    case ModelTarget(r) => ModelSnapshot(r.State())
    case ImageTarget(i) => ImageSnapshot(i.created, i.data, i.hiddenParams)
    case TranscriptionTarget(t) => TranscriptionSnapshot(t.text, t.optional, t.hiddenParams, t.responseHeaders)
    case _ => NoSnapshot
  }

  /** What the completion branch leaves behind, from the target's fields
      `before` it ran. */
  predicate CompletionDone(
    payload: Option<map<string, Json>>, target: Target, stream: bool, hidden: map<string, Json>,
    headers: Option<map<string, string>>, jsonMode: bool, env: Env, codec: Codec, fields: set<string>,
    before: Snapshot, out: Outcome)
    reads TargetObjects(target)
  {
    if payload.None? || !target.ModelTarget? || !before.ModelSnapshot? then out == WrappedError
    else if stream then
      out == Streamed(Streaming.StreamingResponse(payload, Streaming.Sync)) && SnapshotOf(target) == before
    else
      var a := AssembleCompletion(before.state, payload.value, hidden, headers, jsonMode, env, codec, fields);
      target.response.State() == a.state && out == (if a.ok then Completion(target.response) else WrappedError)
  }

  /** What the image branch leaves behind: the target, or a new image, with
      `created` and `data` copied when present and the bag itself attached. */
  predicate ImageDone(payload: Option<map<string, Json>>, target: Target, bag: Headers.HiddenParams,
                      before: Snapshot, out: Outcome)
    reads if out.Image? then {out.image} else {}
  {
    if payload.None? then out == WrappedError
    else
      out.Image? && (target.ImageTarget? ==> out.image == target.image) &&
      out.image.created == (if "created" in payload.value then payload.value["created"]
                            else if before.ImageSnapshot? then before.created else Null) &&
      out.image.data == (if "data" in payload.value then payload.value["data"]
                         else if before.ImageSnapshot? then before.data else Null) &&
      out.image.hiddenParams == bag
  }

  /** What the transcription branch leaves behind: the target, or a new
      transcription, with `text` and the optional keys copied when present,
      the bag itself attached and the headers stored when given. */
  predicate TranscriptionDone(
    payload: Option<map<string, Json>>, target: Target, bag: Headers.HiddenParams,
    headers: Option<map<string, string>>, before: Snapshot, out: Outcome)
    reads if out.Transcription? then {out.transcription} else {}
  {
    if payload.None? then out == WrappedError
    else
      out.Transcription? && (target.TranscriptionTarget? ==> out.transcription == target.transcription) &&
      out.transcription.text == (if "text" in payload.value then payload.value["text"]
                                 else if before.TranscriptionSnapshot? then before.text else Null) &&
      out.transcription.optional ==
        (if before.TranscriptionSnapshot? then before.optional else map[]) + OptionalFields(payload.value) &&
      out.transcription.hiddenParams == bag &&
      out.transcription.responseHeaders ==
        (if headers.Some? then headers
         else if before.TranscriptionSnapshot? then before.responseHeaders else None)
  }

  /** What the branch for `kind` leaves behind; the embedding and rerank
      branches hand off to converters that are not part of this model. */
  predicate BranchDone(
    payload: Option<map<string, Json>>, target: Target, kind: ResponseKind, stream: bool,
    bag: Headers.HiddenParams, headers: Option<map<string, string>>, jsonMode: bool,
    env: Env, codec: Codec, fields: set<string>, before: Snapshot, out: Outcome)
    reads TargetObjects(target), bag, if out.Image? then {out.image} else {},
      if out.Transcription? then {out.transcription} else {}
  {
    match kind
    case CompletionKind =>
      CompletionDone(payload, target, stream, bag.entries, headers, jsonMode, env, codec, fields, before, out)
    case ImageKind => ImageDone(payload, target, bag, before, out)
    case TranscriptionKind => TranscriptionDone(payload, target, bag, headers, before, out)
    case EmbeddingKind => out == Delegated(EmbeddingKind)
    case RerankKind => out == Delegated(RerankKind)
  }

  method ConvertCompletion(
    payload: Option<map<string, Json>>, target: Target, stream: bool, hidden: map<string, Json>,
    headers: Option<map<string, string>>, jsonMode: bool, env: Env, codec: Codec, fields: set<string>)
    returns (out: Outcome)
    requires target.NoTarget? || target.ModelTarget?
    requires CoreFieldNames <= fields
    modifies TargetObjects(target)
    ensures CompletionDone(payload, target, stream, hidden, headers, jsonMode, env, codec, fields,
                           old(SnapshotOf(target)), out)
  {
    if payload.None? || target.NoTarget? {
      return WrappedError;
    }
    if stream {
      var chunk := Streaming.ConvertToStreamingResponse(payload);
      return Streamed(chunk);
    }
    var ok := target.response.Assemble(payload.value, hidden, headers, jsonMode, env, codec, fields);
    out := if ok then Completion(target.response) else WrappedError;
  }

  method ConvertImage(payload: Option<map<string, Json>>, target: Target, bag: Headers.HiddenParams)
    returns (out: Outcome)
    requires target.NoTarget? || target.ImageTarget?
    modifies TargetObjects(target)
    ensures ImageDone(payload, target, bag, old(SnapshotOf(target)), out)
    ensures out.Image? && !target.ImageTarget? ==> fresh(out.image)
  {
    if payload.None? {
      return WrappedError;
    }
    var image: ImageResponse;
    if target.ImageTarget? {
      image := target.image;
    } else {
      image := new ImageResponse();
    }
    image.Assemble(payload.value, bag);
    out := Image(image);
  }

  method ConvertTranscription(
    payload: Option<map<string, Json>>, target: Target, bag: Headers.HiddenParams, headers: Option<map<string, string>>)
    returns (out: Outcome)
    requires target.NoTarget? || target.TranscriptionTarget?
    modifies TargetObjects(target)
    ensures TranscriptionDone(payload, target, bag, headers, old(SnapshotOf(target)), out)
    ensures out.Transcription? && !target.TranscriptionTarget? ==> fresh(out.transcription)
  {
    if payload.None? {
      return WrappedError;
    }
    var transcription: TranscriptionResponse;
    if target.TranscriptionTarget? {
      transcription := target.transcription;
    } else {
      transcription := new TranscriptionResponse();
    }
    transcription.Assemble(payload.value, bag, headers);
    out := Transcription(transcription);
  }

  /** The branch that fits the kind and the target. */
  method Dispatch(
    payload: Option<map<string, Json>>, target: Target, kind: ResponseKind, stream: bool,
    bag: Headers.HiddenParams, headers: Option<map<string, string>>, jsonMode: bool,
    env: Env, codec: Codec, fields: set<string>, ghost before: Snapshot)
    returns (out: Outcome)
    requires Fits(kind, target)
    requires CoreFieldNames <= fields
    requires before == SnapshotOf(target)
    modifies TargetObjects(target)
    ensures BranchDone(payload, target, kind, stream, bag, headers, jsonMode, env, codec, fields, before, out)
    ensures out.Image? && !target.ImageTarget? ==> fresh(out.image)
    ensures out.Transcription? && !target.TranscriptionTarget? ==> fresh(out.transcription)
  {
    HiddenParamsAreNotTargets(bag, target);
    match kind
    case CompletionKind =>
      out := ConvertCompletion(payload, target, stream, bag.entries, headers, jsonMode, env, codec, fields);
    case ImageKind =>
      out := ConvertImage(payload, target, bag);
    case TranscriptionKind =>
      out := ConvertTranscription(payload, target, bag, headers);
    case EmbeddingKind =>
      out := Delegated(EmbeddingKind);
    case RerankKind =>
      out := Delegated(RerankKind);
  }

  /** The result of the conversion once the bag is prepared: a payload error
      raises unwrapped and leaves the target as `before`; a target of another
      type runs no branch, returns nothing and is left as `before`; otherwise
      the kind's branch is done. */
  predicate Converted(
    payload: Option<map<string, Json>>, target: Target, kind: ResponseKind, stream: bool,
    bag: Headers.HiddenParams, headers: Option<map<string, string>>, jsonMode: bool,
    env: Env, codec: Codec, fields: set<string>, before: Snapshot, out: Outcome)
    reads TargetObjects(target), bag, if out.Image? then {out.image} else {},
      if out.Transcription? then {out.transcription} else {}
  {
    (ErrorInPayload(payload, codec).Some? ==>
       out == UpstreamError(ErrorInPayload(payload, codec).value) && SnapshotOf(target) == before) &&
    (ErrorInPayload(payload, codec).None? && !Fits(kind, target) ==>
       out == NoResult && SnapshotOf(target) == before) &&
    (ErrorInPayload(payload, codec).None? && Fits(kind, target) ==>
       BranchDone(payload, target, kind, stream, bag, headers, jsonMode, env, codec, fields, before, out))
  }

  /** The conversion. The headers go into the hidden-parameter bag first
      (`bag`: the caller's non-empty dict itself, or else a fresh one); the
      upstream-error check then runs before any branch and raises unwrapped,
      leaving the target alone; every other failure of a branch raises the
      wrapped error; a kind whose target has another type runs no branch and
      returns nothing. */
  method ConvertToModelResponseObject(
    payload: Option<map<string, Json>>, target: Target, kind: ResponseKind, stream: bool,
    hidden: Headers.HiddenParams?, headers: Option<map<string, string>>, jsonMode: bool,
    env: Env, codec: Codec, fields: set<string>)
    returns (out: Outcome, ghost bag: Headers.HiddenParams)
    requires CoreFieldNames <= fields
    modifies hidden, TargetObjects(target)
    ensures BagPrepared(hidden, headers, bag)
    ensures Converted(payload, target, kind, stream, bag, headers, jsonMode, env, codec, fields, old(SnapshotOf(target)), out)
    ensures out.Image? && !target.ImageTarget? ==> fresh(out.image)
    ensures out.Transcription? && !target.TranscriptionTarget? ==> fresh(out.transcription)
  {
    ghost var before := SnapshotOf(target);
    HiddenParamsAreNotTargets(hidden, target);
    var b := PrepareHiddenParams(hidden, headers);
    bag := b;
    assert SnapshotOf(target) == before;
    HiddenParamsAreNotTargets(b, target);
    out := CheckAndDispatch(payload, target, kind, stream, b, headers, jsonMode, env, codec, fields, before);
  }

  /** The part after the bag is prepared: the upstream-error check, then the
      branch of the kind when the target fits it. */
  method CheckAndDispatch(
    payload: Option<map<string, Json>>, target: Target, kind: ResponseKind, stream: bool,
    bag: Headers.HiddenParams, headers: Option<map<string, string>>, jsonMode: bool,
    env: Env, codec: Codec, fields: set<string>, ghost before: Snapshot)
    returns (out: Outcome)
    requires CoreFieldNames <= fields
    requires before == SnapshotOf(target)
    modifies TargetObjects(target)
    ensures Converted(payload, target, kind, stream, bag, headers, jsonMode, env, codec, fields, before, out)
    ensures out.Image? && !target.ImageTarget? ==> fresh(out.image)
    ensures out.Transcription? && !target.TranscriptionTarget? ==> fresh(out.transcription)
  {
    var upstream := ErrorInPayload(payload, codec);
    if upstream.Some? {
      out := UpstreamError(upstream.value);
    } else if !Fits(kind, target) {
      out := NoResult;
    } else {
      out := Dispatch(payload, target, kind, stream, bag, headers, jsonMode, env, codec, fields, before);
    }
  }

  lemma HiddenParamsAreNotTargets(h: Headers.HiddenParams?, target: Target)
    ensures h !in TargetObjects(target)
  {
  }

  // ---------------------------------------------------------------------
  // Properties

  /** What one completion choice holds, stated against the raw choice. */
  predicate DescribesChoice(raw: Json, position: nat, jsonMode: bool, codec: Codec, c: Choice) {
    raw.Obj? && "message" in raw.m && raw.m["message"].Obj? &&
    var msg := raw.m["message"].m;
    MessageToolCalls(Get(msg, "tool_calls"), codec).Ok? &&
    var tools := MessageToolCalls(Get(msg, "tool_calls"), codec).value;
    c.index == position &&
    c.logprobs == Get(raw.m, "logprobs") &&
    c.enhancements == Get(raw.m, "enhancements") &&
    if JsonModeApplies(jsonMode, tools) then
      c.finishReason == Str("stop") && c.message == ContentOnly(tools.value[0].func.arguments)
    else
      "role" in msg && c.message.Full? &&
      c.message.role == (if Truthy(msg["role"]) then msg["role"] else Str("assistant")) &&
      c.message.content == Get(msg, "content") &&
      c.message.functionCall == Get(msg, "function_call") &&
      c.message.toolCalls == tools &&
      c.message.audio == Get(msg, "audio") &&
      c.finishReason ==
        (if "finish_reason" in raw.m && !raw.m["finish_reason"].Null? then raw.m["finish_reason"]
         else if "finish_details" in raw.m && Truthy(raw.m["finish_details"]) then raw.m["finish_details"]
         else Str("stop"))
  }

  /** One choice per raw choice, in order, each at its own position and
      described by `DescribesChoice`; the list fails exactly when some raw
      choice does. */
  lemma CompletionChoicesShape(raws: seq<Json>, jsonMode: bool, codec: Codec)
    ensures CompletionChoices(raws, jsonMode, codec).Ok? <==>
      forall i :: 0 <= i < |raws| ==> CompletionChoice(raws[i], i, jsonMode, codec).Ok?
    ensures CompletionChoices(raws, jsonMode, codec).Ok? ==>
      var cs := CompletionChoices(raws, jsonMode, codec).value;
      |cs| == |raws| && forall i :: 0 <= i < |raws| ==> DescribesChoice(raws[i], i, jsonMode, codec, cs[i])
  {
    MapIndexedOk(raws, |raws|, CompletionChoiceOf(jsonMode, codec));
    if CompletionChoices(raws, jsonMode, codec).Ok? {
      var cs := CompletionChoices(raws, jsonMode, codec).value;
      forall i | 0 <= i < |raws|
        ensures DescribesChoice(raws[i], i, jsonMode, codec, cs[i])
      {
        assert CompletionChoiceOf(jsonMode, codec)(raws[i], i) == Ok(cs[i]);
        ChoiceDescribed(raws[i], i, jsonMode, codec, cs[i]);
      }
    }
  }

  /** A choice that builds is described by `DescribesChoice`. */
  lemma ChoiceDescribed(raw: Json, position: nat, jsonMode: bool, codec: Codec, c: Choice)
    requires CompletionChoice(raw, position, jsonMode, codec) == Ok(c)
    ensures DescribesChoice(raw, position, jsonMode, codec, c)
  {
  }

  /** Outside JSON mode a message without `role` makes the choice raise. */
  lemma RoleIsRequired(raw: Json, position: nat, jsonMode: bool, codec: Codec)
    requires raw.Obj? && "message" in raw.m && raw.m["message"].Obj?
    requires "role" !in raw.m["message"].m
    requires !(MessageToolCalls(Get(raw.m["message"].m, "tool_calls"), codec).Ok? &&
               JsonModeApplies(jsonMode, MessageToolCalls(Get(raw.m["message"].m, "tool_calls"), codec).value))
    ensures CompletionChoice(raw, position, jsonMode, codec) == Fail
  {
  }

  /** The assembler passes the raw finish reason to `Choices` and never calls
      the finish-reason table itself: "end_turn", which the table maps to
      "stop", is handed on as "end_turn". */
  lemma FinishReasonIsNotMapped(codec: Codec)
    ensures var raw := Obj(map["message" := Obj(map["role" := Str("assistant")]), "finish_reason" := Str("end_turn")]);
      CompletionChoice(raw, 0, false, codec).Ok? &&
      CompletionChoice(raw, 0, false, codec).value.finishReason == Str("end_turn") &&
      CoreHelpers.MapFinishReason("end_turn") == "stop"
  {
    var msg := map["role" := Str("assistant")];
    var raw := Obj(map["message" := Obj(msg), "finish_reason" := Str("end_turn")]);
    assert "tool_calls" !in msg;
    assert Get(raw.m, "finish_reason") == Str("end_turn");
  }

  /** JSON mode with one ordinary tool call whose arguments decode: the
      content is those arguments and the finish reason is "stop". */
  lemma JsonModeSingleCall(raw: Json, position: nat, codec: Codec, tc: Json)
    requires raw.Obj? && "message" in raw.m && raw.m["message"].Obj?
    requires Get(raw.m["message"].m, "tool_calls") == Arr([tc])
    requires R.DecodeToolCall(tc, 0).Ok?
    requires !R.IsSentinel(R.DecodeToolCall(tc, 0).value)
    requires codec.decode(R.DecodeToolCall(tc, 0).value.func.arguments).Some?
    ensures CompletionChoice(raw, position, true, codec) ==
      Ok(Choice(Str("stop"), position, ContentOnly(R.DecodeToolCall(tc, 0).value.func.arguments),
                Get(raw.m, "logprobs"), Get(raw.m, "enhancements")))
  {
    var call := R.DecodeToolCall(tc, 0).value;
    SingleToolCallKept(tc, codec, call);
  }

  /** A lone tool call that is not a sentinel and whose arguments decode
      comes through typing and repair as itself. */
  lemma SingleToolCallKept(tc: Json, codec: Codec, call: R.ToolCall)
    requires R.DecodeToolCall(tc, 0) == Ok(call)
    requires !R.IsSentinel(call) && codec.decode(call.func.arguments).Some?
    ensures MessageToolCalls(Arr([tc]), codec) == Ok(Some([call]))
  {
    assert RecordElements(Arr([tc])) == Ok([tc]);
    SingleDecoded(tc, call);
    SingleRepaired(call, codec);
  }

  lemma SingleDecoded(tc: Json, call: R.ToolCall)
    requires R.DecodeToolCall(tc, 0) == Ok(call)
    ensures MapIndexed([tc], 1, R.DecodeToolCall) == Ok([call])
  {
    assert MapIndexed([tc], 0, R.DecodeToolCall) == Ok([]);
    assert [] + [call] == [call];
  }

  lemma SingleRepaired(call: R.ToolCall, codec: Codec)
    requires !R.IsSentinel(call) && codec.decode(call.func.arguments).Some?
    ensures R.Repair([call], codec) == Ok([call])
  {
    R.RepairWithoutSentinel([call], codec);
  }

  /** Without JSON mode, a message whose tool calls hold no sentinel keeps
      them, typed, in their order. */
  lemma PlainToolCallsKept(raw: Json, position: nat, codec: Codec)
    requires raw.Obj? && "message" in raw.m && raw.m["message"].Obj? && "role" in raw.m["message"].m
    requires Get(raw.m["message"].m, "tool_calls").Arr?
    requires var tcs := Get(raw.m["message"].m, "tool_calls").a;
      forall i :: 0 <= i < |tcs| ==>
        R.DecodeToolCall(tcs[i], i).Ok? && !R.IsSentinel(R.DecodeToolCall(tcs[i], i).value) &&
        codec.decode(R.DecodeToolCall(tcs[i], i).value.func.arguments).Some?
    ensures CompletionChoice(raw, position, false, codec).Ok?
    ensures var tcs := Get(raw.m["message"].m, "tool_calls").a;
      var c := CompletionChoice(raw, position, false, codec).value;
      c.message.Full? && c.message.toolCalls.Some? && |c.message.toolCalls.value| == |tcs| &&
      forall i :: 0 <= i < |tcs| ==> Ok(c.message.toolCalls.value[i]) == R.DecodeToolCall(tcs[i], i)
  {
    var tcs := Get(raw.m["message"].m, "tool_calls").a;
    MapIndexedOk(tcs, |tcs|, R.DecodeToolCall);
    var typed := MapIndexed(tcs, |tcs|, R.DecodeToolCall).value;
    R.RepairWithoutSentinel(typed, codec);
  }

  /** A merge into an unset model adopts the payload's model. */
  lemma MergeModelAdopts(incoming: Json)
    ensures MergeModel(Null, incoming) == Ok(incoming)
  {
  }

  /** A model with a '/' keeps its provider segment: the result is that
      segment, a '/', and the payload's model; a model without '/', or a
      null payload model, leaves the model as it was. */
  lemma MergeModelOnStrings(model: string, incoming: Json)
    ensures '/' in model && incoming.Str? ==>
      MergeModel(Str(model), incoming) == Ok(Str(FirstSegment(model) + "/" + incoming.s)) &&
      IsPrefix(FirstSegment(model) + "/", model)
    ensures '/' !in model || incoming.Null? ==> MergeModel(Str(model), incoming) == Ok(Str(model))
  {
    SingleCharSubstring('/', model);
    assert Contains(Str(model), "/") == Ok('/' in model);
    if '/' in model {
      var seg := FirstSegment(model);
      assert model[..|seg|] == seg;
      assert model[..|seg| + 1] == model[..|seg|] + [model[|seg|]];
      assert model[..|seg| + 1] == seg + "/";
    }
  }

  /** The documented example: `azure/gpt-4` merged with `gpt-4-0613`
      becomes `azure/gpt-4-0613`. */
  lemma MergeModelExample()
    ensures MergeModel(Str("azure/gpt-4"), Str("gpt-4-0613")) == Ok(Str("azure/gpt-4-0613"))
  {
    var model := "azure" + "/" + "gpt-4";
    assert model == "azure/gpt-4";
    assert model[5] == '/';
    FirstSegmentOfJoin("azure", "gpt-4");
    MergeModelOnStrings(model, Str("gpt-4-0613"));
    ExampleJoin();
  }

  lemma ExampleJoin()
    ensures "azure" + "/" + "gpt-4-0613" == "azure/gpt-4-0613"
  {
  }

  lemma {:induction false} FirstSegmentOfJoin(a: string, b: string)
    requires '/' !in a
    ensures FirstSegment(a + "/" + b) == a
    decreases |a|
  {
    if a != [] {
      assert (a + "/" + b)[1..] == a[1..] + "/" + b;
      FirstSegmentOfJoin(a[1..], b);
    }
  }

  /** Merging the same payload model twice changes nothing the second time. */
  lemma MergeModelIsStable(model: string, incoming: string)
    requires '/' in model
    ensures MergeModel(Str(model), Str(incoming)).Ok?
    ensures var once := MergeModel(Str(model), Str(incoming)).value;
      MergeModel(once, Str(incoming)) == Ok(once)
  {
    MergeModelOnStrings(model, Str(incoming));
    var seg := FirstSegment(model);
    var joined := seg + "/" + incoming;
    assert '/' in joined by {
      assert joined[|seg|] == '/';
    }
    MergeModelOnStrings(joined, Str(incoming));
    FirstSegmentOfJoin(seg, incoming);
  }

  /** The last steps: the hidden parameters are the old ones updated with
      the bag, the headers are stored when given, and every extension field
      is copied over the old extension fields. */
  lemma FinishedContents(st: ResponseState, payload: map<string, Json>, hidden: map<string, Json>,
                         headers: Option<map<string, string>>, fields: set<string>)
    requires CoreFieldNames <= fields
    ensures var out := Finished(st, payload, hidden, headers, fields);
      out.hiddenParams.Some? &&
      (forall k :: k in out.hiddenParams.value <==> k in hidden || k in st.hiddenParams.GetOr(map[])) &&
      (forall k :: k in hidden ==> out.hiddenParams.value[k] == hidden[k]) &&
      (forall k :: k in st.hiddenParams.GetOr(map[]) && k !in hidden ==>
        out.hiddenParams.value[k] == st.hiddenParams.GetOr(map[])[k]) &&
      out.responseHeaders == (if headers.Some? then headers else st.responseHeaders) &&
      (forall k :: k in payload && k !in fields && k != "usage" ==> k in out.extra && out.extra[k] == payload[k]) &&
      (forall k :: k in out.extra && k !in st.extra ==> k in payload && k !in CoreFieldNames) &&
      (forall k :: k in st.extra && !(k in payload && k !in fields && k != "usage") ==>
        k in out.extra && out.extra[k] == st.extra[k]) &&
      out.(hiddenParams := st.hiddenParams, responseHeaders := st.responseHeaders, extra := st.extra) == st
  {
  }

  /** The state just before the last steps of a completion that gets to the end. */
  function BeforeFinish(st: ResponseState, payload: map<string, Json>, choices: seq<Choice>, env: Env): ResponseState
    requires "model" in payload ==> MergeModel(WithTopLevelFields(st, payload, env).model, payload["model"]).Ok?
    requires UsagePresent(payload) ==> payload["usage"].Obj?
  {
    var s1 := st.(choices := choices);
    var s2 := if UsagePresent(payload) then s1.(usage := Some(payload["usage"].m)) else s1;
    var s3 := WithTopLevelFields(s2, payload, env);
    if "model" in payload then s3.(model := MergeModel(s3.model, payload["model"]).value) else s3
  }

  /** A completion that gets to the end converts every choice and ends with
      the last steps applied to `BeforeFinish`. */
  lemma CompletionEndsFinished(st: ResponseState, payload: map<string, Json>, hidden: map<string, Json>,
                               headers: Option<map<string, string>>, jsonMode: bool, env: Env,
                               codec: Codec, fields: set<string>)
    requires AssembleCompletion(st, payload, hidden, headers, jsonMode, env, codec, fields).ok
    ensures "choices" in payload && RecordElements(payload["choices"]).Ok?
    ensures CompletionChoices(RecordElements(payload["choices"]).value, jsonMode, codec).Ok?
    ensures UsagePresent(payload) ==> payload["usage"].Obj?
    ensures "model" in payload ==> MergeModel(st.model, payload["model"]).Ok?
    ensures var cs := CompletionChoices(RecordElements(payload["choices"]).value, jsonMode, codec).value;
      AssembleCompletion(st, payload, hidden, headers, jsonMode, env, codec, fields).state ==
        Finished(BeforeFinish(st, payload, cs, env), payload, hidden, headers, fields)
  {
  }

  /** After a completion that got to the end: the choices are the converted
      raw choices; `usage`, `created`, `id`, `system_fingerprint` and the
      model are set as the payload says; the hidden parameters, headers and
      extension fields are as `FinishedContents` says. */
  lemma CompletionAssembled(st: ResponseState, payload: map<string, Json>, hidden: map<string, Json>,
                            headers: Option<map<string, string>>, jsonMode: bool, env: Env,
                            codec: Codec, fields: set<string>)
    requires AssembleCompletion(st, payload, hidden, headers, jsonMode, env, codec, fields).ok
    ensures "choices" in payload && RecordElements(payload["choices"]).Ok?
    ensures var out := AssembleCompletion(st, payload, hidden, headers, jsonMode, env, codec, fields).state;
      Ok(out.choices) == CompletionChoices(RecordElements(payload["choices"]).value, jsonMode, codec) &&
      out.usage == (if UsagePresent(payload) then Some(payload["usage"].m) else st.usage) &&
      out.created == (if "created" in payload then (if Truthy(payload["created"]) then payload["created"] else Num(env.now))
                      else st.created) &&
      out.id == (if "id" in payload then (if Truthy(payload["id"]) then payload["id"] else Str(env.freshId)) else st.id) &&
      out.systemFingerprint == (if "system_fingerprint" in payload then payload["system_fingerprint"] else st.systemFingerprint) &&
      ("model" in payload ==> MergeModel(st.model, payload["model"]) == Ok(out.model)) &&
      ("model" !in payload ==> out.model == st.model) &&
      out == Finished(BeforeFinish(st, payload, out.choices, env), payload, hidden, headers, fields)
  {
    CompletionEndsFinished(st, payload, hidden, headers, jsonMode, env, codec, fields);
  }

  /** A completion that raises: when the choices cannot be converted nothing
      is written; later, the choices stay written while the hidden
      parameters, headers and extension fields are not reached. */
  lemma CompletionFailureKeepsEarlierWrites(st: ResponseState, payload: map<string, Json>, hidden: map<string, Json>,
                                            headers: Option<map<string, string>>, jsonMode: bool, env: Env,
                                            codec: Codec, fields: set<string>)
    requires !AssembleCompletion(st, payload, hidden, headers, jsonMode, env, codec, fields).ok
    ensures var out := AssembleCompletion(st, payload, hidden, headers, jsonMode, env, codec, fields).state;
      (("choices" !in payload || RecordElements(payload["choices"]).Fail? ||
        CompletionChoices(RecordElements(payload["choices"]).value, jsonMode, codec).Fail?) ==> out == st) &&
      out.hiddenParams == st.hiddenParams && out.responseHeaders == st.responseHeaders && out.extra == st.extra
  {
  }

  /** The transcription's optional keys: exactly those present, with their values. */
  lemma OptionalFieldsContents(payload: map<string, Json>)
    ensures forall k :: k in OptionalFields(payload) <==>
      k in payload && k in {"language", "task", "duration", "words", "segments"}
    ensures forall k :: k in OptionalFields(payload) ==> OptionalFields(payload)[k] == payload[k]
  {
    CopiedKeysContents(payload, OptionalTranscriptionKeys);
  }

  /** The raised error's arguments: the status is the error's `code`, else
      422; the message is the error's `message`, JSON-encoded when it is a
      dict and rendered with `str` otherwise, else the default text. */
  lemma UpstreamErrorArgs(payload: map<string, Json>, codec: Codec)
    requires "error" in payload && !payload["error"].Null?
    ensures var e := payload["error"];
      var r := ErrorInPayload(Some(payload), codec);
      r.Some? &&
      (e.Obj? && "code" in e.m ==> r.value.status == e.m["code"]) &&
      (!(e.Obj? && "code" in e.m) ==> r.value.status == Num(422)) &&
      (e.Obj? && "message" in e.m && e.m["message"].Obj? ==> r.value.message == codec.encode(e.m["message"])) &&
      (e.Obj? && "message" in e.m && !e.m["message"].Obj? ==> r.value.message == PyStr(codec, e.m["message"])) &&
      (!(e.Obj? && "message" in e.m) ==> r.value.message == "Error in response object")
  {
  }

  /** The upstream error's defaults: status 422 and the default message
      unless the error is a dict carrying `code` and `message`. */
  lemma UpstreamErrorDefaults(payload: map<string, Json>, codec: Codec)
    requires "error" in payload && !payload["error"].Null?
    ensures var e := ErrorInPayload(Some(payload), codec).value;
      (e.status == Num(422) || (payload["error"].Obj? && "code" in payload["error"].m)) &&
      (e.message == "Error in response object" || (payload["error"].Obj? && "message" in payload["error"].m)) &&
      (!payload["error"].Obj? ==> e == ErrorArgs(Num(422), "Error in response object"))
  {
  }

  /** The documented example: `{"code": 400, "message": "bad request"}`
      raises with status 400 and message "bad request". */
  lemma UpstreamErrorExample(codec: Codec)
    ensures var payload := map["error" := Obj(map["code" := Num(400), "message" := Str("bad request")])];
      ErrorInPayload(Some(payload), codec) == Some(ErrorArgs(Num(400), "bad request"))
  {
  }
}
