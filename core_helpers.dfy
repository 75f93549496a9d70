/** Helpers shared by the response pipeline: the finish-reason table, the
    in-place removal of `index` keys from tool calls, and two lookups in the
    keyword arguments of a request. */
module CoreHelpers {
  import opened JsonValues

  // ---------------------------------------------------------------------
  // Finish-reason mapping

  const StopInputs: set<string> :=
    {"stop_sequence", "COMPLETE", "ERROR", "eos_token", "FINISH_REASON_UNSPECIFIED", "STOP", "end_turn"}
  const LengthInputs: set<string> := {"MAX_TOKENS", "max_tokens"}
  const ContentFilterInputs: set<string> := {"ERROR_TOXIC", "SAFETY", "RECITATION", "content_filtered"}
  const ToolCallInputs: set<string> := {"tool_use"}

  /** Every provider code the table rewrites. */
  const MappedInputs: set<string> := StopInputs + LengthInputs + ContentFilterInputs + ToolCallInputs

  /** The provider's stop code in the OpenAI vocabulary; an unknown code
      passes through unchanged. The branches keep their original order,
      including the ones an earlier branch already shadows. */
  function MapFinishReason(reason: string): (r: string)
    ensures reason in StopInputs ==> r == "stop"
    ensures reason in LengthInputs ==> r == "length"
    ensures reason in ContentFilterInputs ==> r == "content_filter"
    ensures reason in ToolCallInputs ==> r == "tool_calls"
    ensures reason !in MappedInputs ==> r == reason
  {
    if reason == "stop_sequence" then "stop"
    else if reason == "COMPLETE" then "stop"
    else if reason == "MAX_TOKENS" then "length"
    else if reason == "ERROR_TOXIC" then "content_filter"
    else if reason == "ERROR" then "stop"
    else if reason == "eos_token" || reason == "stop_sequence" then "stop"
    else if reason == "FINISH_REASON_UNSPECIFIED" || reason == "STOP" then "stop"
    else if reason == "SAFETY" || reason == "RECITATION" then "content_filter"
    else if reason == "STOP" then "stop"
    else if reason == "end_turn" || reason == "stop_sequence" then "stop"
    else if reason == "max_tokens" then "length"
    else if reason == "tool_use" then "tool_calls"
    else if reason == "content_filtered" then "content_filter"
    else reason
  }

  /** The table's outputs are none of its inputs ... */
  lemma MappedOutputsAreNotInputs(reason: string)
    requires reason in MappedInputs
    ensures MapFinishReason(reason) in CanonicalCodes
    ensures MapFinishReason(reason) !in MappedInputs
  {
  }

  /** ... so mapping twice is mapping once. */
  lemma MapFinishReasonIdempotent(reason: string)
    ensures MapFinishReason(MapFinishReason(reason)) == MapFinishReason(reason)
  {
    if reason in MappedInputs {
      MappedOutputsAreNotInputs(reason);
    }
  }

  /** The OpenAI codes the table produces. */
  const CanonicalCodes: set<string> := {"stop", "length", "content_filter", "tool_calls"}

  /** A canonical code is left alone. */
  lemma CanonicalCodesPassThrough(code: string)
    requires code in CanonicalCodes
    ensures MapFinishReason(code) == code
  {
  }

  /** Matching is case-sensitive: a case variant outside the table passes
      through. */
  lemma CaseVariantsPassThrough()
    ensures MapFinishReason("Stop") == "Stop"
    ensures MapFinishReason("Max_Tokens") == "Max_Tokens"
  {
  }

  // ---------------------------------------------------------------------
  // Removing `index` from tool calls

  /** One tool-call dict without its `index` key. */
  function StripIndex(call: map<string, Json>): (r: map<string, Json>)
    ensures "index" !in r
    ensures forall k :: k in call && k != "index" ==> k in r && r[k] == call[k]
    ensures r.Keys <= call.Keys
  {
    call - {"index"}
  }

  function StripIndexJson(j: Json): Json {
    if j.Obj? then Obj(StripIndex(j.m)) else j
  }

  function StripAll(calls: seq<map<string, Json>>): (r: seq<map<string, Json>>)
    ensures |r| == |calls|
  {
    seq(|calls|, i requires 0 <= i < |calls| => StripIndex(calls[i]))
  }

  function StripAllJson(calls: seq<Json>): (r: seq<Json>)
    ensures |r| == |calls|
  {
    seq(|calls|, i requires 0 <= i < |calls| => StripIndexJson(calls[i]))
  }

  /** A message whose `tool_calls` is a list has that list's dicts stripped;
      any other message is left as it is. */
  function StripMessage(msg: map<string, Json>): map<string, Json> {
    if "tool_calls" in msg && msg["tool_calls"].Arr?
    then msg["tool_calls" := Arr(StripAllJson(msg["tool_calls"].a))]
    else msg
  }

  /** What the removal needs of a message list: every `tool_calls` it
      carries is a list of dicts (otherwise the loop raises midway). */
  predicate WellShapedMessage(msg: map<string, Json>) {
    "tool_calls" in msg ==>
      msg["tool_calls"].Arr? &&
      forall i :: 0 <= i < |msg["tool_calls"].a| ==> msg["tool_calls"].a[i].Obj?
  }

  /** Deletes `index` from every dict of `toolCalls` and of every message's
      `tool_calls`, in place. */
  method RemoveIndexFromToolCalls(messages: array<map<string, Json>>, toolCalls: array<map<string, Json>>)
    requires messages != toolCalls
    requires forall i :: 0 <= i < messages.Length ==> WellShapedMessage(messages[i])
    modifies messages, toolCalls
    ensures toolCalls[..] == StripAll(old(toolCalls[..]))
    ensures messages[..] == seq(messages.Length, i requires 0 <= i < messages.Length => StripMessage(old(messages[i])))
  {
    for i := 0 to toolCalls.Length
      invariant forall j :: 0 <= j < i ==> toolCalls[j] == StripIndex(old(toolCalls[j]))
      invariant forall j :: i <= j < toolCalls.Length ==> toolCalls[j] == old(toolCalls[j])
      invariant messages[..] == old(messages[..])
    {
      if "index" in toolCalls[i] {
        toolCalls[i] := toolCalls[i] - {"index"};
      }
    }
    assert toolCalls[..] == StripAll(old(toolCalls[..]));
    for i := 0 to messages.Length
      invariant forall j :: 0 <= j < i ==> messages[j] == StripMessage(old(messages[j]))
      invariant forall j :: i <= j < messages.Length ==> messages[j] == old(messages[j])
      invariant toolCalls[..] == StripAll(old(toolCalls[..]))
    {
      var message := messages[i];
      if "tool_calls" in message {
        var calls := message["tool_calls"].a;
        var stripped: seq<Json> := [];
        for j := 0 to |calls|
          invariant |stripped| == j
          invariant forall t :: 0 <= t < j ==> stripped[t] == StripIndexJson(calls[t])
        {
          var call := calls[j].m;
          if "index" in call {
            call := call - {"index"};
          }
          stripped := stripped + [Obj(call)];
        }
        assert stripped == StripAllJson(calls);
        messages[i] := message["tool_calls" := Arr(stripped)];
      }
    }
  }

  /** Afterwards no tool-call dict anywhere carries `index`. */
  lemma NoIndexRemains(calls: seq<map<string, Json>>, messages: seq<map<string, Json>>)
    ensures forall i :: 0 <= i < |calls| ==> "index" !in StripAll(calls)[i]
    ensures forall i, j ::
      (0 <= i < |messages| && "tool_calls" in StripMessage(messages[i]) &&
       StripMessage(messages[i])["tool_calls"].Arr? && 0 <= j < |StripMessage(messages[i])["tool_calls"].a| &&
       StripMessage(messages[i])["tool_calls"].a[j].Obj?) ==>
        "index" !in StripMessage(messages[i])["tool_calls"].a[j].m
  {
  }

  /** Every other key keeps its value, messages without `tool_calls` are
      untouched, and no key is added. */
  lemma StripMessageKeepsTheRest(msg: map<string, Json>)
    ensures StripMessage(msg).Keys == msg.Keys
    ensures forall k :: k in msg && k != "tool_calls" ==> StripMessage(msg)[k] == msg[k]
    ensures "tool_calls" !in msg ==> StripMessage(msg) == msg
    ensures "tool_calls" in msg && msg["tool_calls"].Arr? ==>
      var before := msg["tool_calls"].a;
      var after := StripMessage(msg)["tool_calls"].a;
      |after| == |before| &&
      forall j, k :: 0 <= j < |before| && before[j].Obj? && k in before[j].m && k != "index" ==>
        after[j].Obj? && k in after[j].m && after[j].m[k] == before[j].m[k]
  {
  }

  /** A second removal changes nothing. */
  lemma RemoveIndexIdempotent(calls: seq<map<string, Json>>, msg: map<string, Json>)
    ensures StripAll(StripAll(calls)) == StripAll(calls)
    ensures StripMessage(StripMessage(msg)) == StripMessage(msg)
  {
    var once := StripAll(calls);
    assert forall i :: 0 <= i < |once| ==> StripIndex(once[i]) == once[i];
    if "tool_calls" in msg && msg["tool_calls"].Arr? {
      var l := StripAllJson(msg["tool_calls"].a);
      assert forall i :: 0 <= i < |l| ==> StripIndexJson(l[i]) == l[i];
      assert StripAllJson(l) == l;
    }
  }

  // ---------------------------------------------------------------------
  // Lookups in a request's keyword arguments

  /** `kwargs.get("litellm_params", {}).get("metadata", {})`: a present
      `litellm_params` that is not a dict raises. */
  function GetLitellmMetadataFromKwargs(kwargs: map<string, Json>): (r: Result<Json>)
    ensures "litellm_params" !in kwargs ==> r == Ok(EmptyObj)
    ensures "litellm_params" in kwargs ==> (r.Ok? <==> kwargs["litellm_params"].Obj?)
    ensures "litellm_params" in kwargs && kwargs["litellm_params"].Obj? ==>
      r == Ok(GetOr(kwargs["litellm_params"].m, "metadata", EmptyObj))
  {
    var params := GetOr(kwargs, "litellm_params", EmptyObj);
    if params.Obj? then Ok(GetOr(params.m, "metadata", EmptyObj)) else Fail
  }

  const SpanKey := "litellm_parent_otel_span"

  /** `container[SpanKey]` once `SpanKey in container` held: only a dict
      can be subscripted with a string; a string or a list raises. */
  function SpanOf(container: Json): Json {
    if container.Obj? && SpanKey in container.m then container.m[SpanKey] else Null
  }

  /** The parent tracing span of a request: `kwargs["metadata"]` first (a
      falsy value read as `{}`), then `kwargs["litellm_params"]["metadata"]`,
      then `kwargs` itself. None (here `Null`) when `kwargs` is None, when no
      level has the key, or when a lookup raises. */
  function ParentOtelSpanFromKwargs(kwargs: Option<map<string, Json>>): (r: Json)
    ensures kwargs.None? ==> r == Null
    // `SpanKey in metadata` raises: the metadata is truthy but neither a dict, a string nor a list
    ensures kwargs.Some? && Contains(Or(Get(kwargs.value, "metadata"), EmptyObj), SpanKey).Fail? ==> r == Null
    // `metadata[SpanKey]` raises: a string or a list holding the key
    ensures kwargs.Some? ==>
      var metadata := Or(Get(kwargs.value, "metadata"), EmptyObj);
      Contains(metadata, SpanKey) == Ok(true) && !metadata.Obj? ==> r == Null
    // a dict holding the key gives its value
    ensures kwargs.Some? ==>
      var metadata := Or(Get(kwargs.value, "metadata"), EmptyObj);
      metadata.Obj? && SpanKey in metadata.m ==> r == metadata.m[SpanKey]
    // `litellm_params.get` raises: `litellm_params` is neither None nor a dict
    ensures kwargs.Some? ==>
      var params := Get(kwargs.value, "litellm_params");
      var metadata := Or(Get(kwargs.value, "metadata"), EmptyObj);
      Contains(metadata, SpanKey) == Ok(false) && !params.Null? && !params.Obj? ==> r == Null
    // a nested metadata dict holding the key gives its value
    ensures kwargs.Some? ==>
      var params := Get(kwargs.value, "litellm_params");
      var metadata := Or(Get(kwargs.value, "metadata"), EmptyObj);
      var nested := if params.Obj? then Get(params.m, "metadata") else Null;
      Contains(metadata, SpanKey) == Ok(false) && params.Obj? && nested.Obj? && SpanKey in nested.m ==>
        r == nested.m[SpanKey]
    // `SpanKey in nested` raises, or `nested[SpanKey]` does on a string or a list holding the key
    ensures kwargs.Some? ==>
      var params := Get(kwargs.value, "litellm_params");
      var metadata := Or(Get(kwargs.value, "metadata"), EmptyObj);
      var nested := if params.Obj? then Get(params.m, "metadata") else Null;
      var inner := Contains(nested, SpanKey);
      Contains(metadata, SpanKey) == Ok(false) && params.Obj? && !nested.Null? && (inner.Fail? || (inner == Ok(true) && !nested.Obj?)) ==> r == Null
    // neither metadata level holds the key: the top-level value, `Null` when absent
    ensures kwargs.Some? ==>
      var params := Get(kwargs.value, "litellm_params");
      var metadata := Or(Get(kwargs.value, "metadata"), EmptyObj);
      var nested := if params.Obj? then Get(params.m, "metadata") else Null;
      Contains(metadata, SpanKey) == Ok(false) &&
      (params.Null? || (params.Obj? && (nested.Null? || Contains(nested, SpanKey) == Ok(false)))) ==>
        r == Get(kwargs.value, SpanKey)
  {
    match kwargs
    case None => Null
    case Some(kw) =>
      var params := Get(kw, "litellm_params");
      var metadata := Or(Get(kw, "metadata"), EmptyObj);
      var topLevel := Get(kw, SpanKey);
      match Contains(metadata, SpanKey)
      case Fail => Null
      case Ok(true) => SpanOf(metadata)
      case Ok(false) =>
        if params.Null? then topLevel
        else if !params.Obj? then Null
        else
          var nested := Get(params.m, "metadata");
          if nested.Null? then topLevel
          else
            match Contains(nested, SpanKey)
            case Fail => Null
            case Ok(true) => SpanOf(nested)
            case Ok(false) => topLevel
  }

  /** A nested metadata that is a number makes `SpanKey in nested` raise, and
      one that is the key's own text makes `nested[SpanKey]` raise: both give
      `Null`. */
  lemma NestedMetadataRaises()
    ensures ParentOtelSpanFromKwargs(Some(map["litellm_params" := Obj(map["metadata" := Num(5)])])) == Null
    ensures ParentOtelSpanFromKwargs(Some(map["litellm_params" := Obj(map["metadata" := Str(SpanKey)])])) == Null
  {
    assert IsPrefix(SpanKey, SpanKey);
  }

  /** Reference definition: the value under `key` in the first of the
      candidate dicts that has it, or `Null`. */
  function FirstHit(levels: seq<map<string, Json>>, key: string): (r: Json)
    ensures (forall i :: 0 <= i < |levels| ==> key !in levels[i]) ==> r == Null
    ensures forall i ::
      (0 <= i < |levels| && key in levels[i] && (forall j :: 0 <= j < i ==> key !in levels[j])) ==>
        r == levels[i][key]
  {
    if levels == [] then Null
    else if key in levels[0] then levels[0][key]
    else
      var rest := levels[1..];
      assert forall i :: 1 <= i < |levels| ==> rest[i - 1] == levels[i];
      assert forall j :: 0 <= j < |rest| ==> (key !in rest[j] <==> key !in levels[j + 1]);
      FirstHit(rest, key)
  }

  /** When every level is a dict (or missing), the lookup is the
      precedence-ordered search over the three levels. */
  lemma {:induction false} ParentOtelSpanIsFirstHit(kw: map<string, Json>)
    requires Get(kw, "metadata").Obj? || !Truthy(Get(kw, "metadata"))
    requires Get(kw, "litellm_params").Null? || Get(kw, "litellm_params").Obj?
    requires Get(kw, "litellm_params").Obj? ==>
      var nested := Get(Get(kw, "litellm_params").m, "metadata");
      nested.Null? || nested.Obj?
    ensures ParentOtelSpanFromKwargs(Some(kw)) == FirstHit(Levels(kw), SpanKey)
  {
    var levels := Levels(kw);
    var metadata := Or(Get(kw, "metadata"), EmptyObj);
    assert levels[0] == metadata.m;
    if SpanKey !in metadata.m {
      assert FirstHit(levels, SpanKey) == FirstHit(levels[1..], SpanKey);
      assert levels[1..][0] == levels[1];
      assert levels[1..][1..] == levels[2..] == [kw];
      assert [kw][1..] == [];
    }
  }

  /** The three candidate dicts, missing or null levels read as `{}`. */
  function Levels(kw: map<string, Json>): (levels: seq<map<string, Json>>)
    requires Get(kw, "metadata").Obj? || !Truthy(Get(kw, "metadata"))
    requires Get(kw, "litellm_params").Null? || Get(kw, "litellm_params").Obj?
    requires Get(kw, "litellm_params").Obj? ==>
      var nested := Get(Get(kw, "litellm_params").m, "metadata");
      nested.Null? || nested.Obj?
    ensures |levels| == 3 && levels[2] == kw
  {
    var params := Get(kw, "litellm_params");
    var nested := if params.Obj? then Get(params.m, "metadata") else Null;
    [Or(Get(kw, "metadata"), EmptyObj).m, if nested.Obj? then nested.m else map[], kw]
  }

  /** The second level of the span lookup is what the metadata helper returns. */
  lemma SpanFromLitellmMetadata(kw: map<string, Json>)
    requires !Truthy(Get(kw, "metadata"))
    requires "litellm_params" in kw && kw["litellm_params"].Obj?
    requires GetLitellmMetadataFromKwargs(kw).value.Obj?
    requires SpanKey in GetLitellmMetadataFromKwargs(kw).value.m
    ensures ParentOtelSpanFromKwargs(Some(kw)) == GetLitellmMetadataFromKwargs(kw).value.m[SpanKey]
  {
  }
}
