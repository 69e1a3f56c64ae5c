/**
 * The script generation node: ask the configured language model for three scripts, normalise what
 * comes back, fall back to three fixed scripts when anything goes wrong, and reset every decision
 * that depended on the previous scripts.
 */
module ScriptArchitect {
  import opened Wrappers
  import opened Externals
  import opened Strings
  import opened State
  import opened Config
  import opened AgentBase

  const Fence := "```"
  const UnparseableMessage := "Unable to parse JSON response from model"
  const NotObjectMessage := "Parsed response is not a JSON object"

  /** The exceptions `_parse_llm_output` raises on ill-typed JSON, by their kind. */
  const NotSliceableMessage := "TypeError: variants cannot be sliced"
  const ItemNotObjectMessage := "AttributeError: variant item has no attribute 'get'"
  const NotAFloatMessage := "ValueError: could not convert predicted_retention to float"

  /** Three scripts, every one with an id and a retention inside [0.60, 0.90]. */
  predicate WellFormedScripts(vs: seq<ScriptVariant>) {
    && |vs| == 3
    && forall i :: 0 <= i < |vs| ==> vs[i].id != "" && 0.60 <= vs[i].predictedRetention <= 0.90
  }

  /** `str(content)` of a chat response, list contents joined with newlines. */
  function ContentText(c: MessageContent): string {
    match c
    case TextContent(t) => t
    case PartsContent(parts) => Join(parts, "\n")
  }

  /** A code-fence line: its stripped form starts with three backticks. */
  predicate IsFenceLine(line: string) {
    StartsWith(Strip(line), Fence)
  }

  /** The lines that are not code-fence lines, in order. */
  function DropFenceLines(lines: seq<string>): (r: seq<string>)
    ensures |r| <= |lines|
  {
    if lines == [] then []
    else
      var rest := DropFenceLines(lines[1..]);
      if IsFenceLine(lines[0]) then rest else [lines[0]] + rest
  }

  /** Dropping the fence lines keeps every other line and adds none. */
  lemma {:induction false} DropFenceLinesKeeps(lines: seq<string>)
    ensures forall i :: 0 <= i < |lines| && !IsFenceLine(lines[i]) ==> lines[i] in DropFenceLines(lines)
    ensures forall l :: l in DropFenceLines(lines) ==> l in lines && !IsFenceLine(l)
  {
    if lines != [] {
      DropFenceLinesKeeps(lines[1..]);
      assert forall i :: 1 <= i < |lines| ==> lines[i] == lines[1..][i - 1];
    }
  }

  /** The text `json.loads` is first tried on: stripped, and without its fence lines when it opens with a fence. */
  function Candidate(text: string): string {
    var c := Strip(text);
    if StartsWith(c, Fence) then Strip(Join(DropFenceLines(SplitLines(c)), "\n")) else c
  }

  /** The span from the first `{` to the last `}`, when the last `}` comes after the first `{`. */
  function BraceSpan(c: string): Option<string> {
    var start := Find(c, '{');
    var end := RFind(c, '}');
    if start == -1 || end == -1 || end <= start then None else Some(c[start..end + 1])
  }

  /**
   * There is a span exactly when `c` holds a `{` with a `}` somewhere after it; the span then runs
   * from the first `{` to the last `}`, both included.
   */
  lemma BraceSpanShape(c: string)
    ensures BraceSpan(c).None? <==> forall i, j :: 0 <= i < j < |c| ==> !(c[i] == '{' && c[j] == '}')
    ensures BraceSpan(c).Some? ==>
      var r := BraceSpan(c).value;
      && |r| >= 2 && r[0] == '{' && r[|r| - 1] == '}'
      && '{' !in c[..Find(c, '{')] && '}' !in c[RFind(c, '}') + 1..]
      && r == c[Find(c, '{')..RFind(c, '}') + 1]
  {
    var start, end := Find(c, '{'), RFind(c, '}');
    if start == -1 || end == -1 || end <= start {
      NoBracePair(c);
    } else {
      BracePair(c);
    }
  }

  /** Without a span no `{` has a `}` after it. */
  lemma NoBracePair(c: string)
    requires Find(c, '{') == -1 || RFind(c, '}') == -1 || RFind(c, '}') <= Find(c, '{')
    ensures forall i, j :: 0 <= i < j < |c| ==> !(c[i] == '{' && c[j] == '}')
  {
    FindSpec(c, '{');
    RFindSpec(c, '}');
    var start, end := Find(c, '{'), RFind(c, '}');
    AbsentBelow(c, '{', if start == -1 then |c| else start);
    AbsentAbove(c, '}', end + 1);
    forall i, j | 0 <= i < j < |c| && c[i] == '{'
      ensures c[j] != '}'
    {
      assert start != -1 && start <= i;
    }
  }

  /** With a span, it is bounded by the first `{` and the last `}`, which is a `{`-then-`}` pair. */
  lemma BracePair(c: string)
    requires Find(c, '{') != -1 && RFind(c, '}') != -1 && Find(c, '{') < RFind(c, '}')
    ensures var start, end := Find(c, '{'), RFind(c, '}');
      && 0 <= start < end < |c| && c[start] == '{' && c[end] == '}'
      && '{' !in c[..start] && '}' !in c[end + 1..]
  {
    FindSpec(c, '{');
    RFindSpec(c, '}');
  }

  /** A character absent from `s[..n]` is at no index below n. */
  lemma AbsentBelow(s: string, x: char, n: nat)
    requires n <= |s| && x !in s[..n]
    ensures forall k :: 0 <= k < n ==> s[k] != x
  {
    forall k | 0 <= k < n
      ensures s[k] != x
    {
      assert s[..n][k] == s[k];
    }
  }

  /** A character absent from `s[n..]` is at no index from n on. */
  lemma AbsentAbove(s: string, x: char, n: nat)
    requires n <= |s| && x !in s[n..]
    ensures forall k :: n <= k < |s| ==> s[k] != x
  {
    forall k | n <= k < |s|
      ensures s[k] != x
    {
      assert s[n..][k - n] == s[k];
    }
  }

  /**
   * `_safe_json_load`, returning the `variants` list of the parsed object. A decode error of the
   * whole candidate is swallowed; one of the brace span propagates.
   */
  function SafeJsonLoad(text: string, jsonLoads: string -> JsonParse): Result<VariantsValue, string> {
    var c := Candidate(text);
    var whole := jsonLoads(c);
    if whole.JsonObject? then Ok(whole.variants)
    else
      match BraceSpan(c)
      case None => Err(UnparseableMessage)
      case Some(span) =>
        match jsonLoads(span)
        case JsonObject(vs) => Ok(vs)
        case NonObject => Err(NotObjectMessage)
        case DecodeError => Err("JSONDecodeError")
  }

  /**
   * The outcomes of `_safe_json_load`: the whole candidate when it parses to an object, otherwise
   * the brace span, and the two error messages.
   */
  lemma SafeJsonLoadCases(text: string, jsonLoads: string -> JsonParse)
    ensures var c := Candidate(text); var r := SafeJsonLoad(text, jsonLoads);
      && (jsonLoads(c).JsonObject? ==> r == Ok(jsonLoads(c).variants))
      && (!jsonLoads(c).JsonObject? && BraceSpan(c).None? ==> r == Err(UnparseableMessage))
      && (!jsonLoads(c).JsonObject? && BraceSpan(c).Some? ==>
            var loaded := jsonLoads(BraceSpan(c).value);
            && (loaded.JsonObject? ==> r == Ok(loaded.variants))
            && (loaded.NonObject? ==> r == Err(NotObjectMessage))
            && (loaded.DecodeError? ==> r.Err?))
  {
  }

  /**
   * `float(item.get("predicted_retention") or 0.75)` clamped to [0.60, 0.90]: a missing or falsy
   * value gives 0.75, and a truthy value `float()` rejects raises.
   */
  function Retention(raw: FloatField): (r: Result<real, string>)
    ensures r.Err? <==> raw.NotAFloat?
    ensures r.Ok? ==> 0.60 <= r.value <= 0.90
    ensures raw.FloatAbsent? ==> r == Ok(0.75)
    ensures raw.FloatOf? && 0.60 <= raw.x <= 0.90 ==> r == Ok(raw.x)
    ensures raw.FloatOf? && raw.x < 0.60 ==> r == Ok(0.60)
    ensures raw.FloatOf? && raw.x > 0.90 ==> r == Ok(0.90)
  {
    match raw
    case NotAFloat => Err(NotAFloatMessage)
    case FloatAbsent => Ok(0.75)
    case FloatOf(x) => Ok(if x < 0.60 then 0.60 else if x > 0.90 then 0.90 else x)
  }

  /** `str(item.get(key) or default)` for a string field. */
  function OrDefault(field: Option<string>, default: string): (r: string)
    ensures Truthy(field) ==> r == field.value
    ensures !Truthy(field) ==> r == default
  {
    if Truthy(field) then field.value else default
  }

  /** The defaults `_parse_llm_output` writes for fields a model item leaves empty. */
  const MissingHookHead := "Here is what matters about "
  const MissingBodyHead := "Breaking down the key insight for "
  const MissingCta := "Follow for more."
  const MissingTone := "custom"

  /** The texts of the three scripts of `_generate_fallback_variants`. */
  const InterruptTone := "pattern_interrupt"
  const InterruptHookHead := "You are doing "
  const InterruptHookTail := " wrong."
  const InterruptBodyHead := "Most creators miss this: one concrete mistake in "
  const InterruptBodyTail := ", then the fix in 3 steps."
  const InterruptCta := "Comment 'fix' and I will share the checklist."
  const CuriosityTone := "curiosity_gap"
  const CuriosityHookHead := "I found the hidden shortcut for "
  const CuriosityBody := "Set up the problem, tease the missing piece, reveal it with a quick before/after."
  const CuriosityCta := "Save this for your next post."
  const AuthorityTone := "authority_play"
  const AuthorityHookHead := "As a creator, here is what actually works for "
  const AuthorityBody := "Use one proof point, one framework, then one tactical action viewers can apply today."
  const AuthorityCta := "Follow for weekly breakdowns."

  /** An element the loop body of `_parse_llm_output` gets through: an object with a usable retention. */
  predicate Usable(j: JsonItem) {
    j.ItemObject? && !j.item.predictedRetention.NotAFloat?
  }

  /** The exception an element that is not usable raises. */
  function UnusableMessage(j: JsonItem): string {
    if j.ItemNotObject? then ItemNotObjectMessage else NotAFloatMessage
  }

  /**
   * One normalised script; `freshId` is the uuid drawn when the item has no usable id. An element
   * that is not an object, or whose retention `float()` rejects, raises.
   */
  function NormalizeItem(j: JsonItem, topic: string, freshId: UuidText): (r: Result<ScriptVariant, string>)
    ensures r.Ok? <==> Usable(j)
    ensures r.Err? ==> r.error == UnusableMessage(j)
    ensures r.Ok? ==> r.value.id != "" && 0.60 <= r.value.predictedRetention <= 0.90
    ensures r.Ok? && Truthy(j.item.id) ==> r.value.id == j.item.id.value
    ensures r.Ok? && !Truthy(j.item.id) ==> r.value.id == freshId
  {
    if Usable(j) then Ok(NormalizedObject(j.item, topic, freshId)) else Err(UnusableMessage(j))
  }

  /** The script built from an object whose retention `float()` accepts. */
  function NormalizedObject(item: RawScriptItem, topic: string, freshId: UuidText): ScriptVariant
    requires !item.predictedRetention.NotAFloat?
  {
    ScriptVariant(
      OrDefault(item.id, freshId),
      OrDefault(item.hook, MissingHookHead + topic),
      OrDefault(item.body, MissingBodyHead + topic + "."),
      OrDefault(item.cta, MissingCta),
      Retention(item.predictedRetention).value,
      OrDefault(item.tone, MissingTone))
  }

  /** Normalising `j` draws a uuid: it is an object without a usable id. */
  predicate DrawsUuid(j: JsonItem) {
    j.ItemObject? && !Truthy(j.item.id)
  }

  /** How many of the first `n` items lack a usable id, so that normalising them draws a uuid. */
  function MissingIds(items: seq<JsonItem>, n: nat): (m: nat)
    requires n <= |items|
    ensures m <= n
  {
    if n == 0 then 0 else MissingIds(items, n - 1) + (if DrawsUuid(items[n - 1]) then 1 else 0)
  }

  /** The position of the first element that is not usable, or the length when all are. */
  function FirstUnusable(items: seq<JsonItem>): (f: nat)
    ensures f <= |items|
    ensures forall j :: 0 <= j < f ==> Usable(items[j])
    ensures f < |items| ==> !Usable(items[f])
  {
    UnusableFrom(items, 0)
  }

  /** The position of the first element from `i` on that is not usable, or the length when all are. */
  function UnusableFrom(items: seq<JsonItem>, i: nat): (f: nat)
    requires i <= |items|
    ensures i <= f <= |items|
    ensures forall j :: i <= j < f ==> Usable(items[j])
    ensures f < |items| ==> !Usable(items[f])
    decreases |items| - i
  {
    if i == |items| || !Usable(items[i]) then i else UnusableFrom(items, i + 1)
  }

  /** `hooks[index] if index < len(hooks) else default` */
  function HookAt(hooks: seq<string>, index: nat, default: string): string {
    if index < |hooks| then hooks[index] else default
  }

  /** `_generate_fallback_variants` with its three uuids. */
  function FallbackVariants(topic: string, hooks: seq<string>, id0: UuidText, id1: UuidText, id2: UuidText): (vs: seq<ScriptVariant>)
    ensures |vs| == 3
  {
    [ ScriptVariant(id0, HookAt(hooks, 0, InterruptHookHead + topic + InterruptHookTail),
        InterruptBodyHead + topic + InterruptBodyTail, InterruptCta, 0.78, InterruptTone),
      ScriptVariant(id1, HookAt(hooks, 1, CuriosityHookHead + topic + "."), CuriosityBody, CuriosityCta, 0.81, CuriosityTone),
      ScriptVariant(id2, HookAt(hooks, 2, AuthorityHookHead + topic + "."), AuthorityBody, AuthorityCta, 0.76, AuthorityTone) ]
  }

  /**
   * The fallback scripts are well formed, carry the three tones and retentions in order, use the
   * given uuids, and take their hooks from the trend report where it has one, else from the topic.
   */
  lemma FallbackVariantsShape(topic: string, hooks: seq<string>, id0: UuidText, id1: UuidText, id2: UuidText)
    ensures var vs := FallbackVariants(topic, hooks, id0, id1, id2);
      && WellFormedScripts(vs)
      && [vs[0].tone, vs[1].tone, vs[2].tone] == [InterruptTone, CuriosityTone, AuthorityTone]
      && vs[0].predictedRetention == 0.78 && vs[1].predictedRetention == 0.81 && vs[2].predictedRetention == 0.76
      && vs[0].id == id0 && vs[1].id == id1 && vs[2].id == id2
      && (forall i :: 0 <= i < 3 && i < |hooks| ==> vs[i].hook == hooks[i])
      && (|hooks| == 0 ==> vs[0].hook == InterruptHookHead + topic + InterruptHookTail)
      && (|hooks| <= 1 ==> vs[1].hook == CuriosityHookHead + topic + ".")
      && (|hooks| <= 2 ==> vs[2].hook == AuthorityHookHead + topic + ".")
  {
  }

  /** The fallback scripts have ids and retentions inside [0.60, 0.90]. */
  lemma FallbackWellFormed(topic: string, hooks: seq<string>, id0: UuidText, id1: UuidText, id2: UuidText)
    ensures WellFormedScripts(FallbackVariants(topic, hooks, id0, id1, id2))
  {
  }

  /** The trend node's hook suggestions, or none when there is no trend report. */
  function TrendHooks(trend: Option<TrendData>): seq<string> {
    if trend.Some? then trend.value.suggestedHooks else []
  }

  /**
   * The first `n` items normalised, with the uuid stream `ids` read from position `k` on: the j-th
   * item without a usable id takes `ids(k + j)`.
   */
  function NormalizedPrefix(items: seq<JsonItem>, topic: string, ids: nat -> UuidText, k: nat, n: nat): (r: seq<ScriptVariant>)
    requires n <= |items| && forall j :: 0 <= j < n ==> Usable(items[j])
    ensures |r| == n
  {
    seq(n, j requires 0 <= j < n => NormalizedAt(items, topic, ids, k, j))
  }

  /** Item j normalised with the uuid that follows the ones drawn for the items before it. */
  function NormalizedAt(items: seq<JsonItem>, topic: string, ids: nat -> UuidText, k: nat, j: nat): ScriptVariant
    requires j < |items| && Usable(items[j])
  {
    NormalizeItem(items[j], topic, ids(k + MissingIds(items, j))).value
  }

  /** Item j normalises on its own, with the uuid that follows the ones drawn for the items before it. */
  lemma NormalizedPrefixAt(items: seq<JsonItem>, topic: string, ids: nat -> UuidText, k: nat, n: nat)
    requires n <= |items| && forall j :: 0 <= j < n ==> Usable(items[j])
    ensures forall j {:trigger NormalizedPrefix(items, topic, ids, k, n)[j]} :: 0 <= j < n ==>
      NormalizedPrefix(items, topic, ids, k, n)[j] == NormalizedAt(items, topic, ids, k, j)
  {
  }

  /** Normalising one more item appends it. */
  lemma NormalizedPrefixSnoc(items: seq<JsonItem>, topic: string, ids: nat -> UuidText, k: nat, n: nat)
    requires n < |items| && forall j :: 0 <= j <= n ==> Usable(items[j])
    ensures NormalizedPrefix(items, topic, ids, k, n + 1) == NormalizedPrefix(items, topic, ids, k, n) + [NormalizedAt(items, topic, ids, k, n)]
  {
    assert NormalizedPrefix(items, topic, ids, k, n + 1)[..n] == NormalizedPrefix(items, topic, ids, k, n);
  }

  /** Normalising a prefix of the items gives the same scripts as normalising the items themselves. */
  lemma NormalizedPrefixOfPrefix(prefix: seq<JsonItem>, items: seq<JsonItem>, topic: string, ids: nat -> UuidText, k: nat, n: nat)
    requires n <= |prefix| <= |items| && prefix == items[..|prefix|]
    requires forall j :: 0 <= j < n ==> Usable(items[j])
    ensures NormalizedPrefix(prefix, topic, ids, k, n) == NormalizedPrefix(items, topic, ids, k, n)
  {
    MissingIdsOfPrefix(prefix, items, n);
    forall j | 0 <= j < n
      ensures NormalizedAt(prefix, topic, ids, k, j) == NormalizedAt(items, topic, ids, k, j)
    {
      assert prefix[j] == items[j];
    }
  }

  /** Every normalised script has an id and a retention inside [0.60, 0.90]. */
  lemma NormalizedPrefixBounds(items: seq<JsonItem>, topic: string, ids: nat -> UuidText, k: nat, n: nat)
    requires n <= |items| && forall j :: 0 <= j < n ==> Usable(items[j])
    ensures forall j :: 0 <= j < n ==>
      NormalizedPrefix(items, topic, ids, k, n)[j].id != "" && 0.60 <= NormalizedPrefix(items, topic, ids, k, n)[j].predictedRetention <= 0.90
  {
    NormalizedPrefixAt(items, topic, ids, k, n);
  }

  /** Counting missing ids over a prefix of the items only looks at that prefix. */
  lemma {:induction false} MissingIdsOfPrefix(prefix: seq<JsonItem>, items: seq<JsonItem>, n: nat)
    requires n <= |prefix| <= |items| && prefix == items[..|prefix|]
    ensures forall j :: 0 <= j <= n ==> MissingIds(prefix, j) == MissingIds(items, j)
  {
    if n > 0 {
      MissingIdsOfPrefix(prefix, items, n - 1);
      assert prefix[n - 1] == items[n - 1];
    }
  }

  /** The first unusable element is at `i` when every element before it is usable and `i` is the end or unusable. */
  lemma FirstUnusableAt(items: seq<JsonItem>, i: nat)
    requires i <= |items| && forall j :: 0 <= j < i ==> Usable(items[j])
    requires i < |items| ==> !Usable(items[i])
    ensures FirstUnusable(items) == i
  {
  }

  /** `variants[:3]` */
  function FirstThree(vs: seq<JsonItem>): (items: seq<JsonItem>)
    ensures |items| <= 3 && |items| <= |vs| && items == vs[..|items|]
    ensures |vs| >= 3 <==> |items| == 3
  {
    if |vs| > 3 then vs[..3] else vs
  }

  /**
   * `_parse_llm_output` raises: `_safe_json_load` raised, `variants` cannot be sliced, or one of
   * its first three elements is not an object or has a retention `float()` rejects.
   */
  predicate ParseFails(loaded: Result<VariantsValue, string>) {
    || loaded.Err?
    || loaded.value.NotSliceable?
    || exists j :: 0 <= j < |loaded.value.items| && j < 3 && !Usable(loaded.value.items[j])
  }

  /**
   * What `_parse_llm_output` returns for the result of `_safe_json_load` when the uuid stream `ids`
   * stands at position `k`: the first three items normalised, the fallback scripts when there are
   * not three, or the exception raised on the way.
   */
  function ParsedScripts(loaded: Result<VariantsValue, string>, topic: string, hooks: seq<string>, ids: nat -> UuidText, k: nat)
    : Result<seq<ScriptVariant>, string>
  {
    match loaded
    case Err(e) => Err(e)
    case Ok(NotSliceable) => Err(NotSliceableMessage)
    case Ok(ItemList(vs)) =>
      var items := FirstThree(vs);
      var f := FirstUnusable(items);
      if f < |items| then Err(UnusableMessage(items[f]))
      else if |items| == 3 then Ok(NormalizedPrefix(items, topic, ids, k, |items|))
      else
        var j := k + MissingIds(items, |items|);
        Ok(FallbackVariants(topic, hooks, ids(j), ids(j + 1), ids(j + 2)))
  }

  /**
   * How many uuids `_parse_llm_output` draws: one per item without an id before the first one that
   * raises, and three more for the fallback.
   */
  function ParsedDraws(loaded: Result<VariantsValue, string>): nat {
    match loaded
    case Err(_) => 0
    case Ok(NotSliceable) => 0
    case Ok(ItemList(vs)) =>
      var items := FirstThree(vs);
      var f := FirstUnusable(items);
      MissingIds(items, f) + (if f == |items| && |items| != 3 then 3 else 0)
  }

  /** Among the first three elements, some element is not usable exactly when the first unusable one comes before the end. */
  lemma FirstUnusableOfFirstThree(vs: seq<JsonItem>)
    ensures var items := FirstThree(vs);
      FirstUnusable(items) < |items| <==> exists j :: 0 <= j < |vs| && j < 3 && !Usable(vs[j])
  {
    var items := FirstThree(vs);
    var f := FirstUnusable(items);
    if f < |items| {
      assert items[f] == vs[f];
    } else {
      forall j | 0 <= j < |vs| && j < 3
        ensures Usable(vs[j])
      {
        assert items[j] == vs[j];
      }
    }
  }

  /** The first ill-typed element among the first three is the first one of the whole list. */
  lemma FirstUnusableOfPrefix(vs: seq<JsonItem>)
    requires exists j :: 0 <= j < |vs| && j < 3 && !Usable(vs[j])
    ensures var f := FirstUnusable(vs);
      && f < |vs| && f < 3 && FirstUnusable(FirstThree(vs)) == f
      && MissingIds(FirstThree(vs), f) == MissingIds(vs, f)
  {
    var items := FirstThree(vs);
    FirstUnusableOfFirstThree(vs);
    var f := FirstUnusable(items);
    assert items[f] == vs[f];
    forall j | 0 <= j < f
      ensures Usable(vs[j])
    {
      assert items[j] == vs[j];
    }
    FirstUnusableAt(vs, f);
    MissingIdsOfPrefix(items, vs, f);
  }

  /** An ill-typed element among the first three raises at the first such element. */
  lemma ParseRaisesAtFirstUnusable(vs: seq<JsonItem>, topic: string, hooks: seq<string>, ids: nat -> UuidText, k: nat)
    requires exists j :: 0 <= j < |vs| && j < 3 && !Usable(vs[j])
    ensures FirstUnusable(vs) < 3 && FirstUnusable(vs) < |vs|
    ensures ParsedScripts(Ok(ItemList(vs)), topic, hooks, ids, k) == Err(UnusableMessage(vs[FirstUnusable(vs)]))
  {
    FirstUnusableOfPrefix(vs);
    assert FirstThree(vs)[FirstUnusable(vs)] == vs[FirstUnusable(vs)];
  }

  /**
   * Before raising, `_parse_llm_output` has drawn the uuids of the items without an id that come
   * before the ill-typed one, and none for the fallback.
   */
  lemma ParseRaiseDraws(vs: seq<JsonItem>)
    requires exists j :: 0 <= j < |vs| && j < 3 && !Usable(vs[j])
    ensures FirstUnusable(vs) < |vs| && ParsedDraws(Ok(ItemList(vs))) == MissingIds(vs, FirstUnusable(vs))
  {
    FirstUnusableOfPrefix(vs);
  }

  /**
   * `_parse_llm_output` raises exactly when `_safe_json_load` raises, `variants` cannot be sliced, or
   * one of its first three elements is ill-typed; otherwise it returns three well-formed scripts: the
   * normalised first three items when the model gave at least three, else the fallback scripts drawn
   * after the uuids of the items.
   */
  lemma ParsedScriptsShape(loaded: Result<VariantsValue, string>, topic: string, hooks: seq<string>, ids: nat -> UuidText, k: nat)
    ensures var r := ParsedScripts(loaded, topic, hooks, ids, k);
      && (r.Err? <==> ParseFails(loaded))
      && (r.Ok? ==> loaded.Ok? && loaded.value.ItemList? && WellFormedScripts(r.value))
      && (r.Ok? && |loaded.value.items| < 3 ==>
            var j := k + MissingIds(loaded.value.items, |loaded.value.items|);
            r.value == FallbackVariants(topic, hooks, ids(j), ids(j + 1), ids(j + 2)))
      && (r.Ok? && |loaded.value.items| >= 3 ==>
            forall i :: 0 <= i < 3 ==>
              Ok(r.value[i]) == NormalizeItem(loaded.value.items[i], topic, ids(k + MissingIds(loaded.value.items, i))))
  {
    if loaded.Ok? && loaded.value.ItemList? {
      FirstUnusableOfFirstThree(loaded.value.items);
      if !ParseFails(loaded) {
        if |loaded.value.items| >= 3 {
          ParsedScriptsOfThree(loaded, topic, hooks, ids, k);
        } else {
          ParsedScriptsOfFewer(loaded, topic, hooks, ids, k);
        }
      }
    }
  }

  /** Three or more well-typed items: the first three, normalised in order. */
  lemma ParsedScriptsOfThree(loaded: Result<VariantsValue, string>, topic: string, hooks: seq<string>, ids: nat -> UuidText, k: nat)
    requires !ParseFails(loaded) && |loaded.value.items| >= 3
    ensures var r := ParsedScripts(loaded, topic, hooks, ids, k);
      && r.Ok? && WellFormedScripts(r.value)
      && forall i :: 0 <= i < 3 ==>
           Ok(r.value[i]) == NormalizeItem(loaded.value.items[i], topic, ids(k + MissingIds(loaded.value.items, i)))
  {
    var vs := loaded.value.items;
    var items := FirstThree(vs);
    FirstUnusableOfFirstThree(vs);
    NormalizedPrefixOfPrefix(items, vs, topic, ids, k, 3);
    NormalizedPrefixBounds(vs, topic, ids, k, 3);
    NormalizedPrefixAt(vs, topic, ids, k, 3);
  }

  /** Fewer than three well-typed items: the fallback scripts, after one uuid per item without an id. */
  lemma ParsedScriptsOfFewer(loaded: Result<VariantsValue, string>, topic: string, hooks: seq<string>, ids: nat -> UuidText, k: nat)
    requires !ParseFails(loaded) && |loaded.value.items| < 3
    ensures var r := ParsedScripts(loaded, topic, hooks, ids, k);
      var j := k + MissingIds(loaded.value.items, |loaded.value.items|);
      && r.Ok? && WellFormedScripts(r.value)
      && r.value == FallbackVariants(topic, hooks, ids(j), ids(j + 1), ids(j + 2))
  {
    var j := k + MissingIds(loaded.value.items, |loaded.value.items|);
    FirstUnusableOfFirstThree(loaded.value.items);
    FallbackWellFormed(topic, hooks, ids(j), ids(j + 1), ids(j + 2));
  }

  /** `vs` are the fallback scripts, drawn with the last three of the `drawn` uuids of the stream `ids`. */
  predicate IsFallback(vs: seq<ScriptVariant>, topic: string, hooks: seq<string>, ids: nat -> UuidText, drawn: nat) {
    && drawn >= 3
    && vs == FallbackVariants(topic, hooks, ids(drawn - 3), ids(drawn - 2), ids(drawn - 1))
  }

  /** `ScriptArchitectAgent`: the provider, and whether an OpenAI client was built. */
  class ScriptArchitectAgent {
    const provider: string
    const hasOpenAiClient: bool

    /** The client exists only for the "openai" provider with a non-empty key. */
    constructor (settings: Settings)
      ensures provider == settings.llmProvider
      ensures hasOpenAiClient <==> settings.llmProvider == "openai" && settings.openAiApiKey != ""
    {
      provider := settings.llmProvider;
      hasOpenAiClient := settings.llmProvider == "openai" && settings.openAiApiKey != "";
    }

    /** `_generate_fallback_variants`: three fixed scripts, drawing three uuids. */
    method DrawFallbackVariants(topic: string, hooks: seq<string>, uuids: UuidSource) returns (vs: seq<ScriptVariant>)
      modifies uuids`drawn
      ensures vs == FallbackVariants(topic, hooks, uuids.ids(old(uuids.drawn)), uuids.ids(old(uuids.drawn) + 1), uuids.ids(old(uuids.drawn) + 2))
      ensures uuids.drawn == old(uuids.drawn) + 3
    {
      var id0 := uuids.Next();
      var id1 := uuids.Next();
      var id2 := uuids.Next();
      vs := FallbackVariants(topic, hooks, id0, id1, id2);
    }

    /**
     * The loop of `_parse_llm_output`: normalise each item, drawing a uuid for each item without an
     * id, and raise at the first element that is not an object or whose retention `float()` rejects.
     */
    method NormalizeItems(items: seq<JsonItem>, topic: string, uuids: UuidSource) returns (r: Result<seq<ScriptVariant>, string>)
      modifies uuids`drawn
      ensures r.Ok? <==> FirstUnusable(items) == |items|
      ensures r.Ok? ==> r.value == NormalizedPrefix(items, topic, uuids.ids, old(uuids.drawn), |items|)
      ensures r.Err? ==> r.error == UnusableMessage(items[FirstUnusable(items)])
      ensures uuids.drawn == old(uuids.drawn) + MissingIds(items, FirstUnusable(items))
    {
      ghost var start := uuids.drawn;
      ghost var ids := uuids.ids;
      var normalized := [];
      var i := 0;
      while i < |items|
        invariant 0 <= i <= |items|
        invariant forall j :: 0 <= j < i ==> Usable(items[j])
        invariant uuids.drawn == start + MissingIds(items, i)
        invariant normalized == NormalizedPrefix(items, topic, ids, start, i)
      {
        if !Usable(items[i]) {
          FirstUnusableAt(items, i);
          return Err(UnusableMessage(items[i]));
        }
        var id := uuids.ids(uuids.drawn);
        assert id == ids(start + MissingIds(items, i));
        if DrawsUuid(items[i]) {
          id := uuids.Next();
        }
        var v := NormalizeItem(items[i], topic, id).value;
        assert v == NormalizedAt(items, topic, ids, start, i);
        NormalizedPrefixSnoc(items, topic, ids, start, i);
        normalized := normalized + [v];
        i := i + 1;
      }
      FirstUnusableAt(items, i);
      return Ok(normalized);
    }

    /**
     * The part of `_parse_llm_output` after `_safe_json_load`: normalise the first three items of
     * the model's `variants`; anything other than exactly three gives the fallback scripts.
     */
    method ParseLoaded(data: Result<VariantsValue, string>, topic: string, hooks: seq<string>, uuids: UuidSource)
      returns (r: Result<seq<ScriptVariant>, string>)
      modifies uuids`drawn
      ensures r == ParsedScripts(data, topic, hooks, uuids.ids, old(uuids.drawn))
      ensures uuids.drawn == old(uuids.drawn) + ParsedDraws(data)
    {
      if data.Err? {
        return Err(data.error);
      }
      if data.value.NotSliceable? {
        return Err(NotSliceableMessage);
      }
      var items := FirstThree(data.value.items);
      var normalized := NormalizeItems(items, topic, uuids);
      if normalized.Err? {
        return normalized;
      }
      if |normalized.value| != 3 {
        var fallback := DrawFallbackVariants(topic, hooks, uuids);
        return Ok(fallback);
      }
      return normalized;
    }

    /** `_parse_llm_output`: a failed `_safe_json_load` or an ill-typed `variants` raises (`Err`). */
    method ParseLlmOutput(content: string, topic: string, hooks: seq<string>, jsonLoads: string -> JsonParse, uuids: UuidSource)
      returns (r: Result<seq<ScriptVariant>, string>)
      modifies uuids`drawn
      ensures r == ParsedScripts(SafeJsonLoad(content, jsonLoads), topic, hooks, uuids.ids, old(uuids.drawn))
      ensures uuids.drawn == old(uuids.drawn) + ParsedDraws(SafeJsonLoad(content, jsonLoads))
    {
      var data := SafeJsonLoad(content, jsonLoads);
      r := ParseLoaded(data, topic, hooks, uuids);
    }

    /**
     * `_generate_with_openai`: the scripts parsed from the reply, then its counters. A failed call,
     * a failed parse or an unreadable counter entry raises (`Err`); uuids drawn by the parse stay drawn.
     */
    method GenerateWithOpenAi(topic: string, hooks: seq<string>, reply: CallOutcome<LlmResponse>, jsonLoads: string -> JsonParse, uuids: UuidSource)
      returns (r: Result<(seq<ScriptVariant>, map<string, int>), string>)
      modifies uuids`drawn
      ensures reply.Raised? ==> r.Err? && uuids.drawn == old(uuids.drawn)
      ensures old(uuids.drawn) <= uuids.drawn
      ensures reply.Returned? ==>
        (r.Err? <==> ParseFails(SafeJsonLoad(ContentText(reply.value.content), jsonLoads)) || TokenUsageRaises(reply.value))
      ensures r.Ok? ==> ParsedScripts(SafeJsonLoad(ContentText(reply.value.content), jsonLoads), topic, hooks, uuids.ids, old(uuids.drawn)) == Ok(r.value.0)
      ensures r.Ok? ==> WellFormedScripts(r.value.0) && r.value.1 == ResponseUsage(reply.value)
    {
      if reply.Raised? {
        return Err("chat model call failed");
      }
      var response := reply.value;
      ParsedScriptsShape(SafeJsonLoad(ContentText(response.content), jsonLoads), topic, hooks, uuids.ids, uuids.drawn);
      var parsed := ParseLlmOutput(ContentText(response.content), topic, hooks, jsonLoads, uuids);
      if parsed.Err? {
        return Err(parsed.error);
      }
      var usage := ExtractTokenUsage(Some(response));
      if usage.Err? {
        return Err(usage.error);
      }
      return Ok((parsed.value, usage.value));
    }

    /** `int()` of one of the two Ollama counters raises. */
    static predicate CounterRaises(reply: OllamaReply) {
      reply.promptEvalCount.Raised? || reply.evalCount.Raised?
    }

    /**
     * `_generate_with_ollama`: the scripts parsed from the reply, then the counters; the total is the
     * sum of the prompt and completion counts. A failed call, a failed parse or a counter `int()`
     * rejects raises (`Err`); uuids drawn by the parse stay drawn.
     */
    method GenerateWithOllama(topic: string, hooks: seq<string>, reply: CallOutcome<OllamaReply>, jsonLoads: string -> JsonParse, uuids: UuidSource)
      returns (r: Result<(seq<ScriptVariant>, map<string, int>), string>)
      modifies uuids`drawn
      ensures reply.Raised? ==> r.Err? && uuids.drawn == old(uuids.drawn)
      ensures old(uuids.drawn) <= uuids.drawn
      ensures reply.Returned? ==>
        (r.Err? <==> ParseFails(SafeJsonLoad(reply.value.content, jsonLoads)) || CounterRaises(reply.value))
      ensures r.Ok? ==> ParsedScripts(SafeJsonLoad(reply.value.content, jsonLoads), topic, hooks, uuids.ids, old(uuids.drawn)) == Ok(r.value.0)
      ensures r.Ok? ==> WellFormedScripts(r.value.0)
      ensures r.Ok? ==>
        var p, e := reply.value.promptEvalCount.value, reply.value.evalCount.value;
        r.value.1 == Usage(p, e, p + e)
    {
      if reply.Raised? {
        return Err("ollama call failed");
      }
      ParsedScriptsShape(SafeJsonLoad(reply.value.content, jsonLoads), topic, hooks, uuids.ids, uuids.drawn);
      var parsed := ParseLlmOutput(reply.value.content, topic, hooks, jsonLoads, uuids);
      if parsed.Err? {
        return Err(parsed.error);
      }
      if CounterRaises(reply.value) {
        return Err("int() of a token counter raised");
      }
      var p, e := reply.value.promptEvalCount.value, reply.value.evalCount.value;
      return Ok((parsed.value, Usage(p, e, p + e)));
    }

    /** Whether `run` goes to the chat-model provider, to ollama, or straight to the fallback. */
    predicate UsesOpenAi() { provider == "openai" && hasOpenAiClient }
    predicate UsesOllama() { !UsesOpenAi() && provider == "ollama" }

    /** The provider path is skipped or raises, so `run` falls back to the fixed scripts. */
    predicate FellBack(c: Collaborators) {
      if UsesOpenAi() then
        c.openAiReply.Raised?
        || ParseFails(SafeJsonLoad(ContentText(c.openAiReply.value.content), c.jsonLoads))
        || TokenUsageRaises(c.openAiReply.value)
      else if UsesOllama() then
        c.ollamaReply.Raised?
        || ParseFails(SafeJsonLoad(c.ollamaReply.value.content, c.jsonLoads))
        || CounterRaises(c.ollamaReply.value)
      else true
    }

    /** The reply text the provider path parses, when it does not fall back. */
    function ReplyText(c: Collaborators): string
      requires !FellBack(c)
    {
      if UsesOpenAi() then ContentText(c.openAiReply.value.content) else c.ollamaReply.value.content
    }

    /** The counters the provider path adds, when it does not fall back. */
    function ReplyUsage(c: Collaborators): map<string, int>
      requires !FellBack(c)
    {
      if UsesOpenAi() then ResponseUsage(c.openAiReply.value)
      else
        var p, e := c.ollamaReply.value.promptEvalCount.value, c.ollamaReply.value.evalCount.value;
        Usage(p, e, p + e)
    }

    /**
     * The provider part of the `try` block of `run`: the usable "openai" client or "ollama", and
     * `None` when neither applies or the provider path raises.
     */
    method ProviderScripts(topic: string, hooks: seq<string>, c: Collaborators, uuids: UuidSource)
      returns (r: Option<(seq<ScriptVariant>, map<string, int>)>)
      modifies uuids`drawn
      ensures r.None? <==> FellBack(c)
      ensures r.Some? ==> WellFormedScripts(r.value.0) && forall k :: k in r.value.1 <==> IsUsageKey(k)
      ensures r.Some? ==>
        && ParsedScripts(SafeJsonLoad(ReplyText(c), c.jsonLoads), topic, hooks, uuids.ids, old(uuids.drawn)) == Ok(r.value.0)
        && r.value.1 == ReplyUsage(c)
      ensures old(uuids.drawn) <= uuids.drawn
      ensures !UsesOpenAi() && !UsesOllama() ==> uuids.drawn == old(uuids.drawn)
      ensures r.Some? && UsesOllama() ==>
        var p, e := c.ollamaReply.value.promptEvalCount.value, c.ollamaReply.value.evalCount.value;
        r.value.1 == Usage(p, e, p + e)
    {
      r := None;
      if UsesOpenAi() {
        var g := GenerateWithOpenAi(topic, hooks, c.openAiReply, c.jsonLoads, uuids);
        if g.Ok? {
          r := Some(g.value);
        }
      } else if UsesOllama() {
        var g := GenerateWithOllama(topic, hooks, c.ollamaReply, c.jsonLoads, uuids);
        if g.Ok? {
          r := Some(g.value);
        }
      }
    }

    /**
     * The `try` block of `run`: the provider's scripts and counters, or the fallback scripts (drawn
     * with the last three uuids) and zero counters when the provider is neither usable "openai" nor
     * "ollama", or when the provider path raises.
     */
    method Generate(topic: string, hooks: seq<string>, c: Collaborators, uuids: UuidSource)
      returns (variants: seq<ScriptVariant>, usage: map<string, int>)
      modifies uuids`drawn
      ensures WellFormedScripts(variants)
      ensures forall k :: k in usage <==> IsUsageKey(k)
      ensures old(uuids.drawn) <= uuids.drawn
      ensures !UsesOpenAi() && !UsesOllama() ==> uuids.drawn == old(uuids.drawn) + 3
      ensures FellBack(c) ==> usage == ZeroUsage() && IsFallback(variants, topic, hooks, uuids.ids, uuids.drawn)
      ensures !FellBack(c) ==>
        && ParsedScripts(SafeJsonLoad(ReplyText(c), c.jsonLoads), topic, hooks, uuids.ids, old(uuids.drawn)) == Ok(variants)
        && usage == ReplyUsage(c)
      ensures UsesOllama() && !FellBack(c) ==>
        var p, e := c.ollamaReply.value.promptEvalCount.value, c.ollamaReply.value.evalCount.value;
        usage == Usage(p, e, p + e)
    {
      var provided := ProviderScripts(topic, hooks, c, uuids);
      if provided.Some? {
        return provided.value.0, provided.value.1;
      }
      ghost var before := uuids.drawn;
      variants := DrawFallbackVariants(topic, hooks, uuids);
      FallbackWellFormed(topic, hooks, uuids.ids(before), uuids.ids(before + 1), uuids.ids(before + 2));
      assert uuids.drawn - 3 == before;
      assert IsFallback(variants, topic, hooks, uuids.ids, uuids.drawn);
      usage := ZeroUsage();
    }

    /**
     * `run`: store three fresh scripts and forget every decision taken on the previous ones (script
     * choice, both script flags, the thumbnails and their selection); add the counters.
     */
    method Run(s: WorkflowState, c: Collaborators, uuids: UuidSource)
      modifies s`scriptVariants, s`selectedScriptId, s`approval, s`thumbnailVariants, s`selectedThumbnailId
      modifies s`tokenUsage, s`currentStep, s`updatedTs, uuids`drawn
      ensures WellFormedScripts(s.scriptVariants)
      ensures s.selectedScriptId.None? && s.approval == ApprovalStatus(false, false, false)
      ensures s.thumbnailVariants == [] && s.selectedThumbnailId.None?
      ensures s.currentStep == "scripts_generated" && s.updatedTs == Trunc(c.now)
      ensures forall k :: k in s.tokenUsage <==> IsUsageKey(k)
      ensures s.tokenUsage == MergeTokenUsage(old(s.tokenUsage), if FellBack(c) then ZeroUsage() else ReplyUsage(c))
      ensures FellBack(c) ==> IsFallback(s.scriptVariants, s.topic, TrendHooks(s.trendData), uuids.ids, uuids.drawn)
      ensures !FellBack(c) ==>
        && ParsedScripts(SafeJsonLoad(ReplyText(c), c.jsonLoads), s.topic, TrendHooks(s.trendData), uuids.ids, old(uuids.drawn)) == Ok(s.scriptVariants)
    {
      var variants, usage := Generate(s.topic, TrendHooks(s.trendData), c, uuids);
      StoreScripts(s, variants, usage, c.now);
    }

    /** The assignments at the end of `run`. */
    static method StoreScripts(s: WorkflowState, variants: seq<ScriptVariant>, usage: map<string, int>, now: real)
      modifies s`scriptVariants, s`selectedScriptId, s`approval, s`thumbnailVariants, s`selectedThumbnailId
      modifies s`tokenUsage, s`currentStep, s`updatedTs
      ensures s.scriptVariants == variants
      ensures s.selectedScriptId.None? && s.approval == ApprovalStatus(false, false, false)
      ensures s.thumbnailVariants == [] && s.selectedThumbnailId.None?
      ensures s.currentStep == "scripts_generated" && s.updatedTs == Trunc(now)
      ensures s.tokenUsage == MergeTokenUsage(old(s.tokenUsage), usage)
    {
      s.scriptVariants := variants;
      s.selectedScriptId := None;
      s.approval := ApprovalStatus(false, false, false);
      s.thumbnailVariants := [];
      s.selectedThumbnailId := None;
      s.tokenUsage := MergeTokenUsage(s.tokenUsage, usage);
      s.currentStep := "scripts_generated";
      s.updatedTs := Trunc(now);
    }
  }
}
