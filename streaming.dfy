/** The two streaming adapters: each turns a raw chat-completion payload into
    one streaming chunk whose choices hold one delta per input choice. The
    asynchronous variant also gives each raw tool-call dict its list position
    as `index` and does not pass `enhancements` on. */
module Streaming {
  import opened JsonValues

  /** A delta's tool calls: the raw value as the payload had it, or the
      reindexed dicts of the asynchronous variant. */
  datatype DeltaToolCalls = RawToolCalls(raw: Json) | IndexedToolCalls(calls: seq<map<string, Json>>)

  datatype Delta = Delta(content: Json, role: Json, functionCall: Json, toolCalls: DeltaToolCalls)

  /** `enhancements` is `Null` where the variant does not pass it. */
  datatype StreamingChoice = StreamingChoice(
    finishReason: Json, index: nat, delta: Delta, logprobs: Json, enhancements: Json)

  datatype UsageCounts = UsageCounts(completionTokens: Json, promptTokens: Json, totalTokens: Json)

  /** The chunk; `None` stands for a field the payload did not set, left at
      the constructor's default (which is not part of this model). */
  datatype StreamChunk = StreamChunk(
    choices: seq<StreamingChoice>,
    usage: Option<UsageCounts>,
    id: Option<Json>,
    created: Option<Json>,
    systemFingerprint: Option<Json>,
    model: Option<Json>)

  datatype Variant = Sync | Async

  /** One raw tool-call dict of the asynchronous variant: its own `index`
      is kept, a missing one becomes its position. A non-dict raises. */
  function WithIndex(t: Json, position: nat): Result<map<string, Json>> {
    if !t.Obj? then Fail
    else if "index" in t.m then Ok(t.m)
    else Ok(t.m["index" := Num(position)])
  }

  /** Only a non-empty list whose first entry is a dict is reindexed. */
  predicate Reindexable(raw: Json) {
    raw.Arr? && |raw.a| > 0 && raw.a[0].Obj?
  }

  function DeltaTools(raw: Json, variant: Variant): Result<DeltaToolCalls> {
    if variant.Async? && Reindexable(raw) then
      match MapIndexed(raw.a, |raw.a|, WithIndex)
      case Fail => Fail
      case Ok(calls) => Ok(IndexedToolCalls(calls))
    else Ok(RawToolCalls(raw))
  }

  /** The finish reason of a streaming choice: `finish_reason`, else
      `finish_details`, with no default. */
  function StreamFinishReason(choice: map<string, Json>): Json {
    var reason := Get(choice, "finish_reason");
    if reason.Null? then Get(choice, "finish_details") else reason
  }

  /** One streaming choice. A choice that is not a dict, has no dict under
      `message`, or whose message has no `role` raises. */
  function StreamChoice(raw: Json, position: nat, variant: Variant): Result<StreamingChoice> {
    if !raw.Obj? || "message" !in raw.m || !raw.m["message"].Obj? then Fail
    else
      var msg := raw.m["message"].m;
      match DeltaTools(Get(msg, "tool_calls"), variant)
      case Fail => Fail
      case Ok(tools) =>
        if "role" !in msg then Fail
        else
          Ok(StreamingChoice(
            StreamFinishReason(raw.m),
            position,
            Delta(Get(msg, "content"), msg["role"], Get(msg, "function_call"), tools),
            Get(raw.m, "logprobs"),
            if variant.Async? then Null else Get(raw.m, "enhancements")))
  }

  function StreamChoiceOf(variant: Variant): (Json, nat) -> Result<StreamingChoice> {
    (raw: Json, position: nat) => StreamChoice(raw, position, variant)
  }

  /** Usage with each missing count read as 0; a usage that is not a dict raises. */
  function StreamUsage(payload: map<string, Json>): Result<Option<UsageCounts>> {
    if "usage" in payload && !payload["usage"].Null? then
      var u := payload["usage"];
      if !u.Obj? then Fail
      else Ok(Some(UsageCounts(
        GetOr(u.m, "completion_tokens", Num(0)),
        GetOr(u.m, "prompt_tokens", Num(0)),
        GetOr(u.m, "total_tokens", Num(0)))))
    else Ok(None)
  }

  function Copied(payload: map<string, Json>, key: string): Option<Json> {
    if key in payload then Some(payload[key]) else None
  }

  /** The single chunk an adapter yields, or `Fail` when it raises. */
  function StreamingResponse(payload: Option<map<string, Json>>, variant: Variant): Result<StreamChunk> {
    if payload.None? || "choices" !in payload.value then Fail
    else
      var p := payload.value;
      match RecordElements(p["choices"])
      case Fail => Fail
      case Ok(raws) =>
        match MapIndexed(raws, |raws|, StreamChoiceOf(variant))
        case Fail => Fail
        case Ok(choices) =>
          match StreamUsage(p)
          case Fail => Fail
          case Ok(usage) =>
            Ok(StreamChunk(choices, usage, Copied(p, "id"), Copied(p, "created"),
                           Copied(p, "system_fingerprint"), Copied(p, "model")))
  }

  /** The reindexing loop of the asynchronous variant. */
  method ReindexToolCalls(calls: seq<Json>) returns (r: Result<seq<map<string, Json>>>)
    ensures r == MapIndexed(calls, |calls|, WithIndex)
  {
    var typed: seq<map<string, Json>> := [];
    for index := 0 to |calls|
      invariant MapIndexed(calls, index, WithIndex) == Ok(typed)
    {
      var t := calls[index];
      if !t.Obj? {
        MapIndexedFailExtends(calls, index + 1, |calls|, WithIndex);
        return Fail;
      }
      var d := t.m;
      if "index" !in d {
        d := d["index" := Num(index)];
      }
      typed := typed + [d];
    }
    r := Ok(typed);
  }

  /** The loop over choices shared by both adapters. */
  method StreamChoices(raws: seq<Json>, variant: Variant) returns (r: Result<seq<StreamingChoice>>)
    ensures r == MapIndexed(raws, |raws|, StreamChoiceOf(variant))
  {
    var choiceList: seq<StreamingChoice> := [];
    for idx := 0 to |raws|
      invariant MapIndexed(raws, idx, StreamChoiceOf(variant)) == Ok(choiceList)
    {
      var choice := raws[idx];
      if !choice.Obj? || "message" !in choice.m || !choice.m["message"].Obj? {
        MapIndexedFailExtends(raws, idx + 1, |raws|, StreamChoiceOf(variant));
        return Fail;
      }
      var msg := choice.m["message"].m;
      var tools := RawToolCalls(Get(msg, "tool_calls"));
      if variant.Async? && Reindexable(Get(msg, "tool_calls")) {
        var reindexed := ReindexToolCalls(msg["tool_calls"].a);
        if reindexed.Fail? {
          MapIndexedFailExtends(raws, idx + 1, |raws|, StreamChoiceOf(variant));
          return Fail;
        }
        tools := IndexedToolCalls(reindexed.value);
      }
      if "role" !in msg {
        MapIndexedFailExtends(raws, idx + 1, |raws|, StreamChoiceOf(variant));
        return Fail;
      }
      var delta := Delta(Get(msg, "content"), msg["role"], Get(msg, "function_call"), tools);
      var finishReason := Get(choice.m, "finish_reason");
      if finishReason.Null? {
        finishReason := Get(choice.m, "finish_details");
      }
      var enhancements := if variant.Async? then Null else Get(choice.m, "enhancements");
      choiceList := choiceList + [StreamingChoice(finishReason, idx, delta, Get(choice.m, "logprobs"), enhancements)];
    }
    r := Ok(choiceList);
  }

  method BuildChunk(payload: Option<map<string, Json>>, variant: Variant) returns (r: Result<StreamChunk>)
    ensures r == StreamingResponse(payload, variant)
  {
    if payload.None? || "choices" !in payload.value {
      return Fail;
    }
    var p := payload.value;
    var raws := RecordElements(p["choices"]);
    if raws.Fail? {
      return Fail;
    }
    var choices := StreamChoices(raws.value, variant);
    if choices.Fail? {
      return Fail;
    }
    var usage: Option<UsageCounts> := None;
    if "usage" in p && !p["usage"].Null? {
      if !p["usage"].Obj? {
        return Fail;
      }
      var u := p["usage"].m;
      usage := Some(UsageCounts(
        GetOr(u, "completion_tokens", Num(0)),
        GetOr(u, "prompt_tokens", Num(0)),
        GetOr(u, "total_tokens", Num(0))));
    }
    var chunk := StreamChunk(choices.value, usage, None, None, None, None);
    if "id" in p {
      chunk := chunk.(id := Some(p["id"]));
    }
    if "created" in p {
      chunk := chunk.(created := Some(p["created"]));
    }
    if "system_fingerprint" in p {
      chunk := chunk.(systemFingerprint := Some(p["system_fingerprint"]));
    }
    if "model" in p {
      chunk := chunk.(model := Some(p["model"]));
    }
    r := Ok(chunk);
  }

  /** The synchronous adapter, used to replay a cached response as a stream. */
  method ConvertToStreamingResponse(payload: Option<map<string, Json>>) returns (r: Result<StreamChunk>)
    ensures r == StreamingResponse(payload, Sync)
  {
    r := BuildChunk(payload, Sync);
  }

  /** The asynchronous adapter; its extra suspension point after the yield is
      not modelled. */
  method ConvertToStreamingResponseAsync(payload: Option<map<string, Json>>) returns (r: Result<StreamChunk>)
    ensures r == StreamingResponse(payload, Async)
  {
    r := BuildChunk(payload, Async);
  }

  // ---------------------------------------------------------------------
  // Properties

  /** One streaming choice per input choice, at its position; the role is
      copied with no default; the tool calls are the message's, reindexed by
      the asynchronous variant as `ReindexedCalls` says; the finish reason falls back to
      `finish_details` only; logprobs are copied; only the synchronous
      variant passes `enhancements` on. */
  lemma {:induction false} StreamingChoicesShape(payload: Option<map<string, Json>>, variant: Variant)
    requires StreamingResponse(payload, variant).Ok?
    ensures payload.Some? && "choices" in payload.value && RecordElements(payload.value["choices"]).Ok?
    ensures var raws := RecordElements(payload.value["choices"]).value;
      var choices := StreamingResponse(payload, variant).value.choices;
      |choices| == |raws| &&
      forall i :: 0 <= i < |raws| ==>
        raws[i].Obj? && "message" in raws[i].m && raws[i].m["message"].Obj? &&
        "role" in raws[i].m["message"].m &&
        choices[i].index == i &&
        choices[i].delta.role == raws[i].m["message"].m["role"] &&
        choices[i].delta.content == Get(raws[i].m["message"].m, "content") &&
        choices[i].delta.functionCall == Get(raws[i].m["message"].m, "function_call") &&
        DeltaTools(Get(raws[i].m["message"].m, "tool_calls"), variant).Ok? &&
        choices[i].delta.toolCalls == DeltaTools(Get(raws[i].m["message"].m, "tool_calls"), variant).value &&
        choices[i].finishReason ==
          (if Get(raws[i].m, "finish_reason").Null? then Get(raws[i].m, "finish_details")
           else raws[i].m["finish_reason"]) &&
        choices[i].logprobs == Get(raws[i].m, "logprobs") &&
        choices[i].enhancements == (if variant.Sync? then Get(raws[i].m, "enhancements") else Null)
  {
    var raws := RecordElements(payload.value["choices"]).value;
    MapIndexedOk(raws, |raws|, StreamChoiceOf(variant));
  }

  /** A usage dict yields its three counts, each 0 when missing; the
      top-level `id`, `created`, `system_fingerprint` and `model` are copied
      exactly when present. */
  lemma StreamingTopLevel(payload: map<string, Json>, variant: Variant)
    requires StreamingResponse(Some(payload), variant).Ok?
    ensures var chunk := StreamingResponse(Some(payload), variant).value;
      (chunk.usage.Some? <==> "usage" in payload && !payload["usage"].Null?) &&
      (chunk.usage.Some? ==>
        payload["usage"].Obj? &&
        chunk.usage.value.promptTokens == GetOr(payload["usage"].m, "prompt_tokens", Num(0)) &&
        chunk.usage.value.completionTokens == GetOr(payload["usage"].m, "completion_tokens", Num(0)) &&
        chunk.usage.value.totalTokens == GetOr(payload["usage"].m, "total_tokens", Num(0))) &&
      (chunk.id.Some? <==> "id" in payload) && (chunk.id.Some? ==> chunk.id.value == payload["id"]) &&
      (chunk.created.Some? <==> "created" in payload) &&
      (chunk.created.Some? ==> chunk.created.value == payload["created"]) &&
      (chunk.systemFingerprint.Some? <==> "system_fingerprint" in payload) &&
      (chunk.systemFingerprint.Some? ==> chunk.systemFingerprint.value == payload["system_fingerprint"]) &&
      (chunk.model.Some? <==> "model" in payload) && (chunk.model.Some? ==> chunk.model.value == payload["model"])
  {
  }

  /** The asynchronous variant's reindexed tool calls: one dict per raw call,
      an existing `index` kept, a missing one set to the call's position,
      every other key unchanged. */
  lemma {:induction false} ReindexedCalls(raw: Json)
    requires DeltaTools(raw, Async).Ok? && DeltaTools(raw, Async).value.IndexedToolCalls?
    ensures raw.Arr?
    ensures var calls := DeltaTools(raw, Async).value.calls;
      |calls| == |raw.a| &&
      forall j :: 0 <= j < |calls| ==>
        raw.a[j].Obj? && "index" in calls[j] &&
        calls[j]["index"] == (if "index" in raw.a[j].m then raw.a[j].m["index"] else Num(j)) &&
        calls[j].Keys == raw.a[j].m.Keys + {"index"} &&
        forall k :: k in raw.a[j].m && k != "index" ==> calls[j][k] == raw.a[j].m[k]
  {
    MapIndexedOk(raw.a, |raw.a|, WithIndex);
  }

  /** Whatever the asynchronous variant accepts, the synchronous one accepts
      too, and the two chunks differ only in the tool calls and the
      enhancements of their choices. */
  lemma {:induction false} StreamingVariantsAgree(payload: Option<map<string, Json>>)
    requires StreamingResponse(payload, Async).Ok?
    ensures StreamingResponse(payload, Sync).Ok?
    ensures var a := StreamingResponse(payload, Async).value;
      var s := StreamingResponse(payload, Sync).value;
      |a.choices| == |s.choices| &&
      a.usage == s.usage && a.id == s.id && a.created == s.created &&
      a.systemFingerprint == s.systemFingerprint && a.model == s.model &&
      forall i :: 0 <= i < |a.choices| ==>
        a.choices[i].finishReason == s.choices[i].finishReason &&
        a.choices[i].index == s.choices[i].index &&
        a.choices[i].logprobs == s.choices[i].logprobs &&
        a.choices[i].delta.content == s.choices[i].delta.content &&
        a.choices[i].delta.role == s.choices[i].delta.role &&
        a.choices[i].delta.functionCall == s.choices[i].delta.functionCall
  {
    var raws := RecordElements(payload.value["choices"]).value;
    MapIndexedOk(raws, |raws|, StreamChoiceOf(Async));
    forall i | 0 <= i < |raws|
      ensures StreamChoiceOf(Sync)(raws[i], i).Ok?
    {
      assert StreamChoiceOf(Async)(raws[i], i).Ok?;
    }
    MapIndexedOk(raws, |raws|, StreamChoiceOf(Sync));
  }
}
