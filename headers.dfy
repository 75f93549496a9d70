/** The response-header handling of the pipeline: the four rate-limit headers
    are kept under their own names, every raw header is kept again under a
    provider-namespaced name, and the merged bag is written into the hidden
    parameters under `additional_headers`. */
module Headers {
  import opened JsonValues

  const ProviderPrefix: string := "llm_provider-"

  const LimitRequests: string := "x-ratelimit-limit-requests"
  const RemainingRequests: string := "x-ratelimit-remaining-requests"
  const LimitTokens: string := "x-ratelimit-limit-tokens"
  const RemainingTokens: string := "x-ratelimit-remaining-tokens"

  const RateLimitKeys: set<string> := {LimitRequests, RemainingRequests, LimitTokens, RemainingTokens}

  /** The rate-limit headers that are present, unchanged. */
  function OpenAIHeaders(headers: map<string, string>): (r: map<string, string>)
    ensures r.Keys == headers.Keys * RateLimitKeys
    ensures forall k :: k in r ==> r[k] == headers[k]
  {
    var r0: map<string, string> := map[];
    var r1 := if LimitRequests in headers then r0[LimitRequests := headers[LimitRequests]] else r0;
    var r2 := if RemainingRequests in headers then r1[RemainingRequests := headers[RemainingRequests]] else r1;
    var r3 := if LimitTokens in headers then r2[LimitTokens := headers[LimitTokens]] else r2;
    if RemainingTokens in headers then r3[RemainingTokens := headers[RemainingTokens]] else r3
  }

  /** Every raw header again, its name prefixed with `llm_provider-`. */
  function ProviderHeaders(headers: map<string, string>): (r: map<string, string>)
    ensures forall k :: k in headers ==> ProviderPrefix + k in r && r[ProviderPrefix + k] == headers[k]
    ensures forall k :: k in r ==> IsPrefix(ProviderPrefix, k) && k[|ProviderPrefix|..] in headers
  {
    PrefixInjective();
    map k | k in headers :: ProviderPrefix + k := headers[k]
  }

  lemma PrefixInjective()
    ensures forall a, b :: ProviderPrefix + a == ProviderPrefix + b ==> a == b
  {
    forall a, b | ProviderPrefix + a == ProviderPrefix + b
      ensures a == b
    {
      assert a == (ProviderPrefix + a)[|ProviderPrefix|..];
      assert b == (ProviderPrefix + b)[|ProviderPrefix|..];
    }
  }

  /** A namespaced name is never one of the rate-limit names. */
  lemma PrefixedNamesAreNotRateLimitKeys(k: string)
    requires IsPrefix(ProviderPrefix, k)
    ensures k !in RateLimitKeys
  {
    assert k[0] == 'l';
  }

  /** The bag written under `additional_headers`: the namespaced copy of all
      headers, then the rate-limit headers, which win on a shared name. */
  function MergedHeaders(headers: map<string, string>): (r: map<string, string>)
    ensures forall k :: k in headers ==> ProviderPrefix + k in r && r[ProviderPrefix + k] == headers[k]
    ensures forall k :: k in headers && k in RateLimitKeys ==> k in r && r[k] == headers[k]
    ensures forall k :: k in r ==>
      (k in RateLimitKeys && k in headers) || (IsPrefix(ProviderPrefix, k) && k[|ProviderPrefix|..] in headers)
  {
    var r := ProviderHeaders(headers) + OpenAIHeaders(headers);
    forall k | k in headers
      ensures ProviderPrefix + k in r && r[ProviderPrefix + k] == headers[k]
    {
      assert IsPrefix(ProviderPrefix, ProviderPrefix + k);
      PrefixedNamesAreNotRateLimitKeys(ProviderPrefix + k);
    }
    r
  }

  /** The bag as the JSON object stored in the hidden parameters. */
  function HeaderBag(headers: map<string, string>): (j: Json)
    ensures j.Obj? && j.m.Keys == MergedHeaders(headers).Keys
    ensures forall k :: k in j.m ==> j.m[k] == Str(MergedHeaders(headers)[k])
  {
    var merged := MergedHeaders(headers);
    Obj(map k | k in merged :: Str(merged[k]))
  }

  /** A dict of hidden parameters, shared by reference with whoever passed it in. */
  class HiddenParams {
    var entries: map<string, Json>

    constructor (entries: map<string, Json>)
      ensures this.entries == entries
    {
      this.entries := entries;
    }
  }

  /** Writes the merged header bag into `hidden` in place, replacing any
      earlier `additional_headers`, and hands the same dict back. */
  method SetHeadersInHiddenParams(hidden: HiddenParams?, headers: map<string, string>) returns (r: HiddenParams?)
    modifies hidden
    ensures r == hidden
    ensures hidden != null ==> hidden.entries == old(hidden.entries)["additional_headers" := HeaderBag(headers)]
  {
    if hidden != null {
      hidden.entries := hidden.entries["additional_headers" := HeaderBag(headers)];
    }
    r := hidden;
  }

  /** The documented example: a rate-limit header stays unprefixed, any other
      header appears only under its namespaced name. */
  lemma HeaderBagExample()
    ensures var bag := MergedHeaders(map[LimitTokens := "10", "x-foo" := "bar"]);
      LimitTokens in bag && bag[LimitTokens] == "10" &&
      "llm_provider-x-foo" in bag && bag["llm_provider-x-foo"] == "bar" &&
      "x-foo" !in bag
  {
    var headers := map[LimitTokens := "10", "x-foo" := "bar"];
    assert LimitTokens in headers && headers[LimitTokens] == "10";
    assert "x-foo" in headers && headers["x-foo"] == "bar";
    assert ProviderPrefix + "x-foo" == "llm_provider-x-foo";
    assert "x-foo" !in RateLimitKeys;
    assert !IsPrefix(ProviderPrefix, "x-foo") by {
      assert "x-foo"[0] != ProviderPrefix[0];
    }
  }
}
