/** Repair of the packed parallel tool call some models emit: a call to the
    pseudo-function `multi_tool_use.parallel` whose arguments list the real
    calls. Each such call is spliced out of the list and replaced, in place,
    by the calls it packs. */
module ToolCallRepair {
  import opened JsonValues

  const Sentinel: string := "multi_tool_use.parallel"
  const FunctionsPrefix: string := "functions."

  datatype Function = Function(name: string, arguments: string)

  /** A typed tool call; `kind` is the wire field `type`. */
  datatype ToolCall = ToolCall(id: string, kind: string, func: Function)

  /** The typed tool call built from a raw dict. The constructor itself is not
      part of this model: here a dict is accepted when it has a string `id`,
      an optional string `type` (default "function") and a `function` dict
      with a string `name` and a string `arguments`; anything else raises. */
  function DecodeToolCall(j: Json, position: nat): (r: Result<ToolCall>)
    ensures r.Ok? ==> j.Obj? && "id" in j.m && j.m["id"] == Str(r.value.id)
    ensures r.Ok? ==>
      "function" in j.m && j.m["function"].Obj? &&
      "name" in j.m["function"].m && j.m["function"].m["name"] == Str(r.value.func.name) &&
      "arguments" in j.m["function"].m && j.m["function"].m["arguments"] == Str(r.value.func.arguments) &&
      GetOr(j.m, "type", Str("function")) == Str(r.value.kind)
  {
    if !j.Obj? || "id" !in j.m || !j.m["id"].Str? || "function" !in j.m || !j.m["function"].Obj? then Fail
    else
      var f := j.m["function"].m;
      var kind := GetOr(j.m, "type", Str("function"));
      if "name" !in f || !f["name"].Str? || "arguments" !in f || !f["arguments"].Str? || !kind.Str? then Fail
      else Ok(ToolCall(j.m["id"].s, kind.s, Function(f["name"].s, f["arguments"].s)))
  }

  /** A pseudo-call's recipient without one leading `functions.`. */
  function StripFunctionsPrefix(name: string): (r: string)
    ensures IsPrefix(FunctionsPrefix, name) ==> FunctionsPrefix + r == name
    ensures !IsPrefix(FunctionsPrefix, name) ==> r == name
  {
    if IsPrefix(FunctionsPrefix, name) then name[|FunctionsPrefix|..] else name
  }

  /** Pseudo-call number `position` of the sentinel call `origId`, rewritten
      into a genuine call. A pseudo-call that is not a dict, lacks
      `parameters` or `recipient_name`, or whose recipient is not a string
      raises. */
  function PseudoCall(origId: string, codec: Codec, fake: Json, position: nat): Result<ToolCall> {
    if !fake.Obj? || "parameters" !in fake.m || "recipient_name" !in fake.m || !fake.m["recipient_name"].Str? then Fail
    else
      Ok(ToolCall(
        origId + "_" + NatToString(position),
        "function",
        Function(StripFunctionsPrefix(fake.m["recipient_name"].s), codec.encode(fake.m["parameters"]))))
  }

  function PseudoCallOf(origId: string, codec: Codec): (Json, nat) -> Result<ToolCall> {
    (fake: Json, position: nat) => PseudoCall(origId, codec, fake, position)
  }

  /** `args["tool_uses"]`, iterated. */
  function ToolUses(args: Json): Result<seq<Json>> {
    if args.Obj? && "tool_uses" in args.m then RecordElements(args.m["tool_uses"]) else Fail
  }

  function Expand(call: ToolCall, uses: seq<Json>, codec: Codec): Result<seq<ToolCall>> {
    MapIndexed(uses, |uses|, PseudoCallOf(call.id, codec))
  }

  /** What one call contributes: its arguments are decoded whatever its name
      (undecodable arguments raise); a sentinel contributes its rewritten
      pseudo-calls, any other call nothing. */
  function Expansion(call: ToolCall, codec: Codec): Result<seq<ToolCall>> {
    match codec.decode(call.func.arguments)
    case None => Fail
    case Some(args) =>
      if call.func.name != Sentinel then Ok([])
      else
        match ToolUses(args)
        case Fail => Fail
        case Ok(uses) => Expand(call, uses, codec)
  }

  /** One entry of the `replacements` dict. */
  datatype Replacement = Replacement(index: nat, calls: seq<ToolCall>)

  /** The expansion of every call, in list order. */
  function Expansions(calls: seq<ToolCall>, codec: Codec): (r: seq<Result<seq<ToolCall>>>)
    ensures |r| == |calls|
    ensures forall i :: 0 <= i < |calls| ==> r[i] == Expansion(calls[i], codec)
    decreases |calls|
  {
    if calls == [] then [] else Expansions(calls[..|calls| - 1], codec) + [Expansion(calls[|calls| - 1], codec)]
  }

  /** The `replacements` dict built from the expansions of the first `n`
      calls, in insertion order. A sentinel that packs no call adds no entry. */
  function Replacements(exps: seq<Result<seq<ToolCall>>>, n: nat): Result<seq<Replacement>>
    requires n <= |exps|
    decreases n
  {
    if n == 0 then Ok([])
    else AddReplacement(Replacements(exps, n - 1), n - 1, exps[n - 1])
  }

  /** One step of the first loop: call `i` with expansion `e`. */
  function AddReplacement(prev: Result<seq<Replacement>>, i: nat, e: Result<seq<ToolCall>>): Result<seq<Replacement>> {
    match prev
    case Fail => Fail
    case Ok(reps) =>
      match e
      case Fail => Fail
      case Ok(calls) => if calls == [] then Ok(reps) else Ok(reps + [Replacement(i, calls)])
  }

  /** Python's `s[:k]` and `s[k:]`, which clamp an index past the end. */
  function PyTake(s: seq<ToolCall>, k: nat): seq<ToolCall> {
    if k <= |s| then s[..k] else s
  }

  function PyDrop(s: seq<ToolCall>, k: nat): seq<ToolCall> {
    if k <= |s| then s[k..] else []
  }

  /** `tool_calls[:] = tool_calls[:i + shift] + replacement + tool_calls[i + shift + 1:]`
      for each entry, with the shift growing by `len(replacement)`. */
  function ApplyReplacements(items: seq<ToolCall>, reps: seq<Replacement>, shift: nat): seq<ToolCall>
    decreases |reps|
  {
    if reps == [] then items
    else
      var at := reps[0].index + shift;
      ApplyReplacements(PyTake(items, at) + reps[0].calls + PyDrop(items, at + 1), reps[1..], shift + |reps[0].calls|)
  }

  /** The list the repair leaves behind, or `Fail` when it raises. */
  function Repair(calls: seq<ToolCall>, codec: Codec): Result<seq<ToolCall>> {
    match Replacements(Expansions(calls, codec), |calls|)
    case Fail => Fail
    case Ok(reps) => Ok(ApplyReplacements(calls, reps, 0))
  }

  /** A list of tool calls that the repair rewrites in place. */
  class ToolCallList {
    var items: seq<ToolCall>

    constructor (items: seq<ToolCall>)
      ensures this.items == items
    {
      this.items := items;
    }

    /** The second loop of the repair: each entry replaces the call at its
        index plus the running shift. */
    method SpliceAll(reps: seq<Replacement>)
      modifies this
      ensures items == ApplyReplacements(old(items), reps, 0)
    {
      ghost var target := ApplyReplacements(items, reps, 0);
      var shift: nat := 0;
      for j := 0 to |reps|
        invariant ApplyReplacements(items, reps[j..], shift) == target
      {
        var at := reps[j].index + shift;
        ApplyReplacementsStep(items, reps, j, shift);
        items := PyTake(items, at) + reps[j].calls + PyDrop(items, at + 1);
        shift := shift + |reps[j].calls|;
      }
      assert reps[|reps|..] == [];
    }
  }

  /** One entry of the second loop. */
  lemma ApplyReplacementsStep(items: seq<ToolCall>, reps: seq<Replacement>, j: nat, shift: nat)
    requires j < |reps|
    ensures var at := reps[j].index + shift;
      ApplyReplacements(items, reps[j..], shift) ==
        ApplyReplacements(PyTake(items, at) + reps[j].calls + PyDrop(items, at + 1), reps[j + 1..], shift + |reps[j].calls|)
  {
    assert reps[j..][0] == reps[j];
    assert reps[j..][1..] == reps[j + 1..];
  }

  datatype RepairOutcome = NoList | Repaired(list: ToolCallList) | RepairFailed

  /** Rewrites the pseudo-calls of the packed parallel calls for one sentinel. */
  method ExpandSentinel(call: ToolCall, uses: seq<Json>, codec: Codec) returns (r: Result<seq<ToolCall>>)
    ensures r == Expand(call, uses, codec)
  {
    var fixed: seq<ToolCall> := [];
    for j := 0 to |uses|
      invariant MapIndexed(uses, j, PseudoCallOf(call.id, codec)) == Ok(fixed)
    {
      var fake := uses[j];
      if !fake.Obj? || "parameters" !in fake.m || "recipient_name" !in fake.m || !fake.m["recipient_name"].Str? {
        MapIndexedFailExtends(uses, j + 1, |uses|, PseudoCallOf(call.id, codec));
        return Fail;
      }
      var name := fake.m["recipient_name"].s;
      if IsPrefix(FunctionsPrefix, name) {
        name := name[|FunctionsPrefix|..];
      }
      var tc := ToolCall(call.id + "_" + NatToString(j), "function", Function(name, codec.encode(fake.m["parameters"])));
      fixed := fixed + [tc];
    }
    r := Ok(fixed);
  }

  /** The body of the first loop for one call: its arguments are decoded,
      and a sentinel's pseudo-calls are rewritten. */
  method ExpandCall(call: ToolCall, codec: Codec) returns (r: Result<seq<ToolCall>>)
    ensures r == Expansion(call, codec)
  {
    var args := codec.decode(call.func.arguments);
    if args.None? {
      return Fail;
    }
    if call.func.name != Sentinel {
      return Ok([]);
    }
    var uses := ToolUses(args.value);
    if uses.Fail? {
      return Fail;
    }
    r := ExpandSentinel(call, uses.value, codec);
  }

  /** The first loop of the repair: decodes every call's arguments and
      collects, per sentinel, the calls it packs. */
  method CollectReplacements(calls: seq<ToolCall>, codec: Codec) returns (r: Result<seq<Replacement>>)
    ensures r == Replacements(Expansions(calls, codec), |calls|)
  {
    ghost var exps := Expansions(calls, codec);
    var reps: seq<Replacement> := [];
    for i := 0 to |calls|
      invariant Replacements(exps, i) == Ok(reps)
    {
      var fixed := ExpandCall(calls[i], codec);
      CollectStep(exps, i, reps);
      if fixed.Fail? {
        return Fail;
      }
      if fixed.value != [] {
        reps := reps + [Replacement(i, fixed.value)];
      }
    }
    r := Ok(reps);
  }

  /** One turn of the first loop: the expansion at `i` either fails the
      whole dict or extends the dict built so far. */
  lemma CollectStep(exps: seq<Result<seq<ToolCall>>>, i: nat, reps: seq<Replacement>)
    requires i < |exps| && Replacements(exps, i) == Ok(reps)
    ensures exps[i].Fail? ==> Replacements(exps, |exps|) == Fail
    ensures exps[i].Ok? ==>
      Replacements(exps, i + 1) ==
        Ok(if exps[i].value == [] then reps else reps + [Replacement(i, exps[i].value)])
  {
    if exps[i].Fail? {
      assert Replacements(exps, i + 1) == Fail;
      ReplacementsFailExtends(exps, i + 1, |exps|);
    }
  }

  /** The repair: `None` for a missing list, otherwise the same
      list object, rewritten as `Repair` says; when a call raises, the list is
      still untouched. */
  method HandleInvalidParallelToolCalls(list: ToolCallList?, codec: Codec) returns (out: RepairOutcome)
    modifies list
    ensures list == null ==> out == NoList
    ensures list != null ==>
      match Repair(old(list.items), codec)
      case Ok(fixed) => out == Repaired(list) && list.items == fixed
      case Fail => out == RepairFailed && list.items == old(list.items)
  {
    if list == null {
      return NoList;
    }
    var collected := CollectReplacements(list.items, codec);
    if collected.Fail? {
      return RepairFailed;
    }
    list.SpliceAll(collected.value);
    return Repaired(list);
  }

  lemma {:induction false} ReplacementsFailExtends(exps: seq<Result<seq<ToolCall>>>, i: nat, n: nat)
    requires i <= n <= |exps|
    requires Replacements(exps, i).Fail?
    ensures Replacements(exps, n).Fail?
    decreases n
  {
    if n > i {
      ReplacementsFailExtends(exps, i, n - 1);
    }
  }

  /** Calls that contribute nothing leave the dict as it was. */
  lemma {:induction false} ReplacementsSkip(exps: seq<Result<seq<ToolCall>>>, a: nat, b: nat)
    requires a <= b <= |exps|
    requires forall m :: a <= m < b ==> exps[m] == Ok([])
    ensures Replacements(exps, b) == Replacements(exps, a)
    decreases b
  {
    if b > a {
      ReplacementsSkip(exps, a, b - 1);
    }
  }

  /** Among the first `n` calls only the one at `s` contributes, and it
      contributes `e`: the dict holds that one entry. */
  lemma OneReplacementUpTo(exps: seq<Result<seq<ToolCall>>>, s: nat, e: seq<ToolCall>, n: nat)
    requires s < n <= |exps|
    requires forall i :: 0 <= i < n && i != s ==> exps[i] == Ok([])
    requires exps[s] == Ok(e) && e != []
    ensures Replacements(exps, n) == Ok([Replacement(s, e)])
  {
    ReplacementsSkip(exps, 0, s);
    assert Replacements(exps, s + 1) == Ok([] + [Replacement(s, e)]);
    assert [] + [Replacement(s, e)] == [Replacement(s, e)];
    ReplacementsSkip(exps, s + 1, n);
  }

  /** Only the calls at `s < t` contribute: the dict holds their two entries, in order. */
  lemma TwoReplacements(exps: seq<Result<seq<ToolCall>>>, s: nat, e1: seq<ToolCall>, t: nat, e2: seq<ToolCall>)
    requires s < t < |exps|
    requires forall i :: 0 <= i < |exps| && i != s && i != t ==> exps[i] == Ok([])
    requires exps[s] == Ok(e1) && e1 != []
    requires exps[t] == Ok(e2) && e2 != []
    ensures Replacements(exps, |exps|) == Ok([Replacement(s, e1), Replacement(t, e2)])
  {
    OneReplacementUpTo(exps, s, e1, t);
    assert Replacements(exps, t + 1) == Ok([Replacement(s, e1)] + [Replacement(t, e2)]);
    assert [Replacement(s, e1)] + [Replacement(t, e2)] == [Replacement(s, e1), Replacement(t, e2)];
    ReplacementsSkip(exps, t + 1, |exps|);
  }

  predicate IsSentinel(call: ToolCall) {
    call.func.name == Sentinel
  }

  /** Arguments that decode, on a call that is not a sentinel, contribute nothing. */
  lemma PlainCallContributesNothing(call: ToolCall, codec: Codec)
    requires !IsSentinel(call)
    requires codec.decode(call.func.arguments).Some?
    ensures Expansion(call, codec) == Ok([])
  {
  }

  /** Every decodable call other than those at `s` and `t` contributes nothing. */
  lemma OthersContributeNothing(calls: seq<ToolCall>, codec: Codec, s: nat, t: nat)
    requires forall i :: 0 <= i < |calls| && i != s && i != t ==> !IsSentinel(calls[i])
    requires forall i :: 0 <= i < |calls| ==> codec.decode(calls[i].func.arguments).Some?
    ensures forall i :: 0 <= i < |calls| && i != s && i != t ==> Expansions(calls, codec)[i] == Ok([])
  {
    forall i | 0 <= i < |calls| && i != s && i != t
      ensures Expansions(calls, codec)[i] == Ok([])
    {
      PlainCallContributesNothing(calls[i], codec);
    }
  }

  /** With no sentinel in the list, the repair raises exactly when some
      call's arguments do not decode, and otherwise hands back the list
      unchanged. */
  lemma RepairWithoutSentinel(calls: seq<ToolCall>, codec: Codec)
    requires forall i :: 0 <= i < |calls| ==> !IsSentinel(calls[i])
    ensures Repair(calls, codec).Ok? <==> forall i :: 0 <= i < |calls| ==> codec.decode(calls[i].func.arguments).Some?
    ensures Repair(calls, codec).Ok? ==> Repair(calls, codec).value == calls
  {
    if forall i :: 0 <= i < |calls| ==> codec.decode(calls[i].func.arguments).Some? {
      OthersContributeNothing(calls, codec, |calls|, |calls|);
      ReplacementsSkip(Expansions(calls, codec), 0, |calls|);
    } else {
      var i :| 0 <= i < |calls| && codec.decode(calls[i].func.arguments).None?;
      RepairFailsOnUndecodable(calls, codec, i);
    }
  }

  /** Any call whose arguments do not decode makes the repair raise. */
  lemma RepairFailsOnUndecodable(calls: seq<ToolCall>, codec: Codec, i: nat)
    requires i < |calls|
    requires codec.decode(calls[i].func.arguments).None?
    ensures Repair(calls, codec) == Fail
  {
    var exps := Expansions(calls, codec);
    assert exps[i] == Fail;
    assert Replacements(exps, i + 1).Fail?;
    ReplacementsFailExtends(exps, i + 1, |calls|);
  }

  /** Exactly one sentinel, at `s`, packing `k >= 1` calls: the result is
      the calls before it, the `k` rewritten calls, then the calls after it. */
  lemma RepairSingleSentinel(calls: seq<ToolCall>, codec: Codec, s: nat)
    requires s < |calls| && IsSentinel(calls[s])
    requires forall i :: 0 <= i < |calls| && i != s ==> !IsSentinel(calls[i])
    requires forall i :: 0 <= i < |calls| ==> codec.decode(calls[i].func.arguments).Some?
    requires Expansion(calls[s], codec).Ok? && Expansion(calls[s], codec).value != []
    ensures Repair(calls, codec) == Ok(calls[..s] + Expansion(calls[s], codec).value + calls[s + 1..])
    ensures |Repair(calls, codec).value| == |calls| + |Expansion(calls[s], codec).value| - 1
  {
    var e := Expansion(calls[s], codec).value;
    var exps := Expansions(calls, codec);
    OthersContributeNothing(calls, codec, s, s);
    OneReplacementUpTo(exps, s, e, |calls|);
    var reps := [Replacement(s, e)];
    assert ApplyReplacements(calls, reps, 0) == ApplyReplacements(calls[..s] + e + calls[s + 1..], [], |e|);
  }

  /** A sentinel whose `tool_uses` is empty adds no entry, so the list is
      handed back with the sentinel still in it. */
  lemma RepairKeepsEmptySentinel(calls: seq<ToolCall>, codec: Codec, s: nat)
    requires s < |calls| && IsSentinel(calls[s])
    requires forall i :: 0 <= i < |calls| && i != s ==> !IsSentinel(calls[i])
    requires forall i :: 0 <= i < |calls| ==> codec.decode(calls[i].func.arguments).Some?
    requires Expansion(calls[s], codec) == Ok([])
    ensures Repair(calls, codec) == Ok(calls)
  {
    OthersContributeNothing(calls, codec, s, s);
    ReplacementsSkip(Expansions(calls, codec), 0, |calls|);
  }

  /** Each rewritten call: id `<orig-id>_<j>`, type "function", the recipient
      without its `functions.` prefix, and as arguments the JSON encoding of
      the pseudo-call's `parameters`, which decodes back to them for a codec
      that round-trips. */
  lemma ExpansionContents(call: ToolCall, codec: Codec)
    requires IsSentinel(call)
    requires Expansion(call, codec).Ok?
    ensures var args := codec.decode(call.func.arguments);
      args.Some? && ToolUses(args.value).Ok? &&
      var uses := ToolUses(args.value).value;
      var e := Expansion(call, codec).value;
      |e| == |uses| &&
      forall j :: 0 <= j < |e| ==>
        uses[j].Obj? && "recipient_name" in uses[j].m && uses[j].m["recipient_name"].Str? && "parameters" in uses[j].m &&
        e[j].id == call.id + "_" + NatToString(j) &&
        e[j].kind == "function" &&
        e[j].func.name == StripFunctionsPrefix(uses[j].m["recipient_name"].s) &&
        e[j].func.arguments == codec.encode(uses[j].m["parameters"]) &&
        (RoundTrips(codec) ==> codec.decode(e[j].func.arguments) == Some(uses[j].m["parameters"]))
  {
    var uses := ToolUses(codec.decode(call.func.arguments).value).value;
    MapIndexedOk(uses, |uses|, PseudoCallOf(call.id, codec));
  }

  /** The rewritten calls carry pairwise distinct ids. */
  lemma ExpansionIdsDistinct(call: ToolCall, codec: Codec, i: nat, j: nat)
    requires IsSentinel(call) && Expansion(call, codec).Ok?
    requires i < j < |Expansion(call, codec).value|
    ensures Expansion(call, codec).value[i].id != Expansion(call, codec).value[j].id
  {
    ExpansionContents(call, codec);
    var e := Expansion(call, codec).value;
    if e[i].id == e[j].id {
      assert NatToString(i) == e[i].id[|call.id| + 1..];
      assert NatToString(j) == e[j].id[|call.id| + 1..];
      NatToStringInjective(i, j);
    }
  }

  /** As written, a second sentinel is spliced at an offset one too far: the
      second sentinel survives the repair (at its shifted position) and the
      call after it is lost instead. */
  lemma RepairTwoSentinelsAsWritten(calls: seq<ToolCall>, codec: Codec, s: nat, e1: seq<ToolCall>, t: nat, e2: seq<ToolCall>)
    requires s < t < |calls| && IsSentinel(calls[s]) && IsSentinel(calls[t])
    requires forall i :: 0 <= i < |calls| && i != s && i != t ==> !IsSentinel(calls[i])
    requires forall i :: 0 <= i < |calls| ==> codec.decode(calls[i].func.arguments).Some?
    requires Expansion(calls[s], codec) == Ok(e1) && e1 != []
    requires Expansion(calls[t], codec) == Ok(e2) && e2 != []
    ensures Repair(calls, codec).Ok?
    ensures var r := Repair(calls, codec).value;
      t + |e1| - 1 < |r| && r[t + |e1| - 1] == calls[t] && IsSentinel(r[t + |e1| - 1]) &&
      (t + 1 < |calls| ==> |r| == |calls| + |e1| + |e2| - 2)
  {
    var reps := [Replacement(s, e1), Replacement(t, e2)];
    OthersContributeNothing(calls, codec, s, t);
    TwoReplacements(Expansions(calls, codec), s, e1, t, e2);
    RepairAppliesReplacements(calls, codec, reps);
    SpliceTwiceAsWritten(calls, s, e1, t, e2);
  }

  lemma RepairAppliesReplacements(calls: seq<ToolCall>, codec: Codec, reps: seq<Replacement>)
    requires Replacements(Expansions(calls, codec), |calls|) == Ok(reps)
    ensures Repair(calls, codec) == Ok(ApplyReplacements(calls, reps, 0))
  {
  }

  /** The two splices of the loop for entries at `s < t`. */
  lemma SpliceTwiceAsWritten(calls: seq<ToolCall>, s: nat, e1: seq<ToolCall>, t: nat, e2: seq<ToolCall>)
    requires s < t < |calls| && e1 != []
    ensures var r := ApplyReplacements(calls, [Replacement(s, e1), Replacement(t, e2)], 0);
      t + |e1| - 1 < |r| && r[t + |e1| - 1] == calls[t] &&
      (t + 1 < |calls| ==> |r| == |calls| + |e1| + |e2| - 2)
  {
    var reps := [Replacement(s, e1), Replacement(t, e2)];
    var once := calls[..s] + e1 + calls[s + 1..];
    assert ApplyReplacements(calls, reps, 0) == ApplyReplacements(once, reps[1..], |e1|);
    var at := t + |e1|;
    assert |once| == |calls| + |e1| - 1;
    assert once[at - 1] == calls[t];
    var twice := PyTake(once, at) + e2 + PyDrop(once, at + 1);
    assert reps[1..][1..] == [];
    assert ApplyReplacements(once, reps[1..], |e1|) == ApplyReplacements(twice, [], |e1| + |e2|);
    assert twice[at - 1] == once[at - 1];
  }
}
