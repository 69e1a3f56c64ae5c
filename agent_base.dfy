/**
 * The helpers every agent inherits from `BaseAgent`: reading the token counters off a chat-model
 * response, and adding two sets of counters together. A counter dict always has exactly the three
 * keys of `IsUsageKey`.
 */
module AgentBase {
  import opened Wrappers
  import opened Externals

  const PromptTokens := "prompt_tokens"
  const CompletionTokens := "completion_tokens"
  const TotalTokens := "total_tokens"

  /** The keys of a token-usage dict. */
  predicate IsUsageKey(k: string) {
    k == PromptTokens || k == CompletionTokens || k == TotalTokens
  }

  /** `d.get(key, 0)` */
  function Count(d: map<string, int>, key: string): int {
    if key in d then d[key] else 0
  }

  /** A token-usage dict with the three counters. */
  function Usage(prompt: int, completion: int, total: int): (u: map<string, int>)
    ensures forall k :: k in u <==> IsUsageKey(k)
    ensures Count(u, PromptTokens) == prompt && Count(u, CompletionTokens) == completion && Count(u, TotalTokens) == total
  {
    map[PromptTokens := prompt, CompletionTokens := completion, TotalTokens := total]
  }

  /** `{"prompt_tokens": 0, "completion_tokens": 0, "total_tokens": 0}` */
  function ZeroUsage(): map<string, int> {
    Usage(0, 0, 0)
  }

  /** The one response shape `extract_token_usage` raises on: it reaches a `token_usage` entry that is not a dict. */
  predicate TokenUsageRaises(response: LlmResponse) {
    && response.usageMetadata.UsageMetadataNotDict?
    && response.responseMetadata.ResponseMetadataDict?
    && response.responseMetadata.tokenUsage.TokenUsageNotDict?
  }

  /**
   * The counters `extract_token_usage` reads from a response it does not raise on: the dict
   * `usage_metadata` under its own key names, else the dict `token_usage` of a dict
   * `response_metadata`, else zeros.
   */
  function ResponseUsage(response: LlmResponse): (u: map<string, int>)
    ensures forall k :: k in u <==> IsUsageKey(k)
  {
    if response.usageMetadata.UsageMetadataDict? then
      var c := response.usageMetadata.counts;
      Usage(Count(c, "input_tokens"), Count(c, "output_tokens"), Count(c, TotalTokens))
    else
      match response.responseMetadata
      case ResponseMetadataDict(TokenUsageDict(c)) => Usage(Count(c, PromptTokens), Count(c, CompletionTokens), Count(c, TotalTokens))
      case _ => ZeroUsage()
  }

  /**
   * `extract_token_usage`: no response gives zeros; a dict `usage_metadata` wins and is read with
   * its own key names; otherwise a dict `response_metadata` is read through its `token_usage`
   * entry. A `token_usage` entry that is present but not a dict makes `.get` raise (`Err`).
   */
  method ExtractTokenUsage(response: Option<LlmResponse>) returns (r: Result<map<string, int>, string>)
    ensures r.Ok? ==> forall k :: k in r.value <==> IsUsageKey(k)
    ensures r.Err? <==> response.Some? && TokenUsageRaises(response.value)
    ensures response.None? ==> r == Ok(ZeroUsage())
    ensures response.Some? && r.Ok? ==> r.value == ResponseUsage(response.value)
    ensures response.Some? && response.value.usageMetadata.UsageMetadataDict? ==>
      var c := response.value.usageMetadata.counts;
      r == Ok(Usage(Count(c, "input_tokens"), Count(c, "output_tokens"), Count(c, TotalTokens)))
    ensures response.Some? && response.value.usageMetadata.UsageMetadataNotDict? ==>
      match response.value.responseMetadata
      case ResponseMetadataNotDict => r == Ok(ZeroUsage())
      case ResponseMetadataDict(TokenUsageMissing) => r == Ok(ZeroUsage())
      case ResponseMetadataDict(TokenUsageDict(c)) =>
        r == Ok(Usage(Count(c, PromptTokens), Count(c, CompletionTokens), Count(c, TotalTokens)))
      case ResponseMetadataDict(TokenUsageNotDict) => r.Err?
  {
    var usage := ZeroUsage();
    if response.None? {
      return Ok(usage);
    }
    var resp := response.value;
    if resp.usageMetadata.UsageMetadataDict? {
      var c := resp.usageMetadata.counts;
      usage := usage[PromptTokens := Count(c, "input_tokens")];
      usage := usage[CompletionTokens := Count(c, "output_tokens")];
      usage := usage[TotalTokens := Count(c, TotalTokens)];
      UsageExtensional(usage, Usage(Count(c, "input_tokens"), Count(c, "output_tokens"), Count(c, TotalTokens)));
      return Ok(usage);
    }
    if resp.responseMetadata.ResponseMetadataDict? {
      var entry := resp.responseMetadata.tokenUsage;
      var c: map<string, int> := map[];
      if entry.TokenUsageNotDict? {
        return Err("'token_usage' has no attribute 'get'");
      } else if entry.TokenUsageDict? {
        c := entry.counts;
      }
      usage := usage[PromptTokens := Count(c, PromptTokens)];
      usage := usage[CompletionTokens := Count(c, CompletionTokens)];
      usage := usage[TotalTokens := Count(c, TotalTokens)];
      UsageExtensional(usage, Usage(Count(c, PromptTokens), Count(c, CompletionTokens), Count(c, TotalTokens)));
    }
    return Ok(usage);
  }

  /** `merge_token_usage`: counter-wise sum, a missing counter read as 0. */
  function MergeTokenUsage(current: map<string, int>, update: map<string, int>): (r: map<string, int>)
    ensures forall k :: k in r <==> IsUsageKey(k)
    ensures forall k | IsUsageKey(k) :: Count(r, k) == Count(current, k) + Count(update, k)
  {
    Usage(
      Count(current, PromptTokens) + Count(update, PromptTokens),
      Count(current, CompletionTokens) + Count(update, CompletionTokens),
      Count(current, TotalTokens) + Count(update, TotalTokens))
  }

  /** A counter dict is determined by its three counters. */
  lemma UsageExtensional(a: map<string, int>, b: map<string, int>)
    requires forall k :: k in a <==> IsUsageKey(k)
    requires forall k :: k in b <==> IsUsageKey(k)
    requires forall k | IsUsageKey(k) :: Count(a, k) == Count(b, k)
    ensures a == b
  {
    assert forall k | k in a :: a[k] == Count(a, k) == Count(b, k) == b[k];
  }

  /** Merging zeros into a counter dict gives it back, on either side. */
  lemma MergeZeroIdentity(u: map<string, int>)
    requires forall k :: k in u <==> IsUsageKey(k)
    ensures MergeTokenUsage(u, ZeroUsage()) == u
    ensures MergeTokenUsage(ZeroUsage(), u) == u
  {
    UsageExtensional(MergeTokenUsage(u, ZeroUsage()), u);
    UsageExtensional(MergeTokenUsage(ZeroUsage(), u), u);
  }

  /** The order of the two arguments does not matter. */
  lemma MergeCommutative(a: map<string, int>, b: map<string, int>)
    ensures MergeTokenUsage(a, b) == MergeTokenUsage(b, a)
  {
    UsageExtensional(MergeTokenUsage(a, b), MergeTokenUsage(b, a));
  }

  /** Accumulating over several runs does not depend on the grouping. */
  lemma MergeAssociative(a: map<string, int>, b: map<string, int>, c: map<string, int>)
    ensures MergeTokenUsage(MergeTokenUsage(a, b), c) == MergeTokenUsage(a, MergeTokenUsage(b, c))
  {
    UsageExtensional(MergeTokenUsage(MergeTokenUsage(a, b), c), MergeTokenUsage(a, MergeTokenUsage(b, c)));
  }
}
