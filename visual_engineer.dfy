/**
 * The thumbnail node: pick the script to illustrate, write three image prompts around its hook,
 * derive a seed per thumbnail from the workflow id, and point each thumbnail at the image service.
 */
module VisualEngineer {
  import opened Wrappers
  import opened Externals
  import opened Strings
  import opened State
  import opened Config

  function Pow16(n: nat): (p: nat)
    ensures p >= 1
  {
    if n == 0 then 1 else 16 * Pow16(n - 1)
  }

  /** `int(s, 16)` for a string of hex digits; it is below 16 to the number of digits. */
  function HexValue(s: seq<HexDigit>): (v: nat)
    ensures v < Pow16(|s|)
  {
    if s == [] then 0 else HexValue(s[..|s| - 1]) * 16 + s[|s| - 1] as nat
  }

  /** Eight hex digits read at most 2^32 - 1. */
  lemma EightDigitsBound(s: seq<HexDigit>)
    requires |s| == 8
    ensures HexValue(s) < 0x1_0000_0000
  {
    assert Pow16(8) == 0x1_0000_0000;
  }

  /** The first eight digits of the sha-256 of "<workflow id>:<index>". */
  function SeedDigits(workflowId: string, index: nat, sha256Hex: string -> HexDigest): (d: seq<HexDigit>)
    ensures |d| == 8
  {
    sha256Hex(workflowId + ":" + NatToString(index))[..8]
  }

  /**
   * `_seed_for`: the first eight hex digits of the digest read as a number, raised to 1 when they
   * are all zero; always a positive 32-bit value.
   */
  function SeedFor(workflowId: string, index: nat, sha256Hex: string -> HexDigest): (seed: int)
    ensures 1 <= seed < 0x1_0000_0000
    ensures HexValue(SeedDigits(workflowId, index, sha256Hex)) >= 1 ==> seed == HexValue(SeedDigits(workflowId, index, sha256Hex))
    ensures HexValue(SeedDigits(workflowId, index, sha256Hex)) == 0 ==> seed == 1
  {
    var d := SeedDigits(workflowId, index, sha256Hex);
    EightDigitsBound(d);
    var v := HexValue(d);
    if v < 1 then 1 else v
  }

  /** The seeds of positions 0 to n - 1. */
  function Seeds(workflowId: string, sha256Hex: string -> HexDigest, n: nat): (r: seq<int>)
    ensures |r| == n
  {
    if n == 0 then [] else Seeds(workflowId, sha256Hex, n - 1) + [SeedFor(workflowId, n - 1, sha256Hex)]
  }

  /** Seed i of the list is the seed of position i, a positive 32-bit value. */
  lemma {:induction false} SeedsAt(workflowId: string, sha256Hex: string -> HexDigest, n: nat)
    ensures forall i {:trigger Seeds(workflowId, sha256Hex, n)[i]} :: 0 <= i < n ==>
      Seeds(workflowId, sha256Hex, n)[i] == SeedFor(workflowId, i, sha256Hex) && 1 <= Seeds(workflowId, sha256Hex, n)[i] < 0x1_0000_0000
  {
    if n > 0 {
      SeedsAt(workflowId, sha256Hex, n - 1);
    }
  }

  const NoLogoEnhance := "&nologo=true&enhance=true"

  /** The query string `urlencode` builds from the seed, the size and the two fixed flags. */
  function Query(seed: int, width: int, height: int): string {
    "seed=" + IntToString(seed) + "&width=" + IntToString(width) + "&height=" + IntToString(height) + NoLogoEnhance
  }

  /** `_build_image_url`: the base URL, a slash, the percent-encoded prompt, a question mark and the query string. */
  function ImageUrl(base: string, prompt: string, seed: int, width: int, height: int, quote: string -> string): string {
    base + "/" + quote(prompt) + "?" + Query(seed, width, height)
  }

  /** A URL built that way splits back into its base, its encoded prompt and its query. */
  lemma UrlParts(base: string, encoded: string, query: string)
    ensures var url := base + "/" + encoded + "?" + query;
      && StartsWith(url, base + "/") && EndsWith(url, "?" + query)
      && |url| == |base| + 1 + |encoded| + 1 + |query|
      && url[|base| + 1..|url| - |query| - 1] == encoded
  {
    var url := base + "/" + encoded + "?" + query;
    assert url[..|base| + 1] == base + "/";
    assert url[|url| - |query| - 1..] == "?" + query;
  }

  /**
   * The image URL starts with the base and a slash, ends with a question mark and the query, and
   * holds exactly the percent-encoded prompt between the two.
   */
  lemma ImageUrlShape(base: string, prompt: string, seed: int, width: int, height: int, quote: string -> string)
    ensures var url := ImageUrl(base, prompt, seed, width, height, quote);
      var q := Query(seed, width, height);
      && StartsWith(url, base + "/") && EndsWith(url, "?" + q)
      && |url| == |base| + 1 + |quote(prompt)| + 1 + |q|
      && url[|base| + 1..|url| - |q| - 1] == quote(prompt)
  {
    UrlParts(base, quote(prompt), Query(seed, width, height));
  }

  /** The fixed opening of every thumbnail prompt. */
  const PromptPrefix := "YouTube thumbnail, 16:9, ultra-sharp, high CTR composition, no watermark, no logos, no signatures. "
  const HookLabel := ". Hook text: "

  /** A thumbnail style and its visual direction, written up to the topic. */
  datatype PromptSpec = PromptSpec(style: string, direction: string)

  const FaceDirection := "Close-up expressive creator face, cinematic lighting, dramatic emotion, topic "
  const ProductDirection := "Hero product/object composition, clean background, high contrast, visual metaphor for "
  const TypographyDirection := "Bold typography thumbnail with 3-5 punchy words, dynamic arrows/shapes, clear hierarchy around "

  /** The three styles, in the order the thumbnails are made. */
  const PromptSpecs := [
    PromptSpec("face_focused", FaceDirection),
    PromptSpec("product_focused", ProductDirection),
    PromptSpec("text_heavy", TypographyDirection)]

  /** The prompt of one style: the fixed prefix, then the direction around topic and hook. */
  function Prompt(spec: PromptSpec, topic: string, hook: string): string {
    PromptPrefix + spec.direction + topic + HookLabel + hook + "."
  }

  /** A prompt opens with the fixed prefix, the style's direction and the topic, and ends with the hook. */
  lemma PromptShape(spec: PromptSpec, topic: string, hook: string)
    ensures StartsWith(Prompt(spec, topic, hook), PromptPrefix + spec.direction + topic)
    ensures EndsWith(Prompt(spec, topic, hook), HookLabel + hook + ".")
  {
    var p := Prompt(spec, topic, hook);
    var opening := PromptPrefix + spec.direction + topic;
    assert p == opening + (HookLabel + hook + ".");
    assert p[..|opening|] == opening;
    assert p[|p| - |HookLabel + hook + "."|..] == HookLabel + hook + ".";
  }

  /** The stored script whose id is `id`, the first one when several are: its index. */
  function FirstWithId(scripts: seq<ScriptVariant>, id: string): (r: Option<nat>)
    ensures r.Some? ==> r.value < |scripts| && scripts[r.value].id == id
    ensures r.Some? ==> forall j :: 0 <= j < r.value ==> scripts[j].id != id
    ensures r.None? <==> forall j :: 0 <= j < |scripts| ==> scripts[j].id != id
  {
    if scripts == [] then None
    else if scripts[0].id == id then Some(0)
    else
      var rest := FirstWithId(scripts[1..], id);
      assert forall j :: 1 <= j < |scripts| ==> scripts[j] == scripts[1..][j - 1];
      if rest.Some? then Some(rest.value + 1) else None
  }

  /** The texts of the script `_resolve_script` makes up when there are none. */
  const FallbackHookTail := " made simple"
  const FallbackBodyHead := "Practical explanation for "
  const FallbackCta := "Follow for more."
  const FallbackTone := "fallback"

  /** The script `_resolve_script` makes up when there are none. */
  function FallbackScript(topic: string, id: UuidText): ScriptVariant {
    ScriptVariant(id, topic + FallbackHookTail, FallbackBodyHead + topic + ".", FallbackCta, 0.75, FallbackTone)
  }

  /**
   * What `_resolve_script` returns, with `freshId` the uuid drawn when there are no scripts: the
   * selected script when its id is stored, else the first script, else the fallback.
   */
  function ResolvedScript(selected: Option<string>, scripts: seq<ScriptVariant>, topic: string, freshId: UuidText): ScriptVariant {
    if Truthy(selected) && FirstWithId(scripts, selected.value).Some? then scripts[FirstWithId(scripts, selected.value).value]
    else if scripts != [] then scripts[0]
    else FallbackScript(topic, freshId)
  }

  /**
   * `_resolve_script` picks the first stored script whose id is the selected one; without a
   * selection, or when no stored script has it, the first script; and only with no scripts at all
   * the fallback, whose tone is the fallback tone and whose hook is the topic followed by its tail.
   */
  lemma ResolvedScriptCases(selected: Option<string>, scripts: seq<ScriptVariant>, topic: string, freshId: UuidText)
    ensures var r := ResolvedScript(selected, scripts, topic, freshId);
      && (Truthy(selected) && (exists i :: 0 <= i < |scripts| && scripts[i].id == selected.value) ==>
            r.id == selected.value && r in scripts)
      && (Truthy(selected) ==> forall i :: 0 <= i < |scripts| && scripts[i].id == selected.value ==>
            exists j :: 0 <= j <= i && scripts[j] == r)
      && ((!Truthy(selected) || forall i :: 0 <= i < |scripts| ==> scripts[i].id != selected.value) && scripts != [] ==>
            r == scripts[0])
      && (scripts == [] ==> r == FallbackScript(topic, freshId) && r.tone == FallbackTone && r.id == freshId)
  {
    if Truthy(selected) {
      var f := FirstWithId(scripts, selected.value);
      if f.Some? {
        assert scripts[f.value] in scripts;
      }
    }
  }

  /** `VisualEngineerAgent`: the image service base without trailing slashes, and the image size. */
  class VisualEngineerAgent {
    const baseUrl: string
    const width: int
    const height: int

    constructor (settings: Settings)
      ensures baseUrl == RStripChar(settings.pollinationsBaseUrl, '/')
      ensures width == settings.thumbnailWidth && height == settings.thumbnailHeight
    {
      baseUrl := RStripChar(settings.pollinationsBaseUrl, '/');
      width := settings.thumbnailWidth;
      height := settings.thumbnailHeight;
    }

    /** The thumbnail made from `spec` with `seed` and its uuid. */
    function ThumbnailAt(spec: PromptSpec, seed: int, topic: string, hook: string, c: Collaborators, id: UuidText)
      : ThumbnailVariant
    {
      var prompt := Prompt(spec, topic, hook);
      ThumbnailVariant(id, spec.style, prompt, ImageUrl(baseUrl, prompt, seed, width, height, c.quote), seed)
    }

    /**
     * A thumbnail has the style of its spec, a prompt that opens with the fixed prefix and the
     * spec's direction, the seed of its position (between 1 and 2^32 - 1), and an image URL under
     * the base that ends with the query carrying that seed and the configured size.
     */
    lemma ThumbnailAtShape(spec: PromptSpec, seed: int, topic: string, hook: string, c: Collaborators, id: UuidText)
      ensures var th := ThumbnailAt(spec, seed, topic, hook, c, id);
        && th.id == id && th.style == spec.style && th.seed == seed
        && StartsWith(th.prompt, PromptPrefix + spec.direction + topic)
        && StartsWith(th.imageUrl, baseUrl + "/")
        && EndsWith(th.imageUrl, "?" + Query(seed, width, height))
    {
      PromptShape(spec, topic, hook);
      ImageUrlShape(baseUrl, Prompt(spec, topic, hook), seed, width, height, c.quote);
    }

    /**
     * The thumbnails of the first `n` specs, the uuid stream `ids` standing at `k`: thumbnail i
     * takes seed i and the uuid `ids(k + i)`.
     */
    function Thumbnails(specs: seq<PromptSpec>, seeds: seq<int>, topic: string, hook: string, c: Collaborators, ids: nat -> UuidText, k: nat, n: nat)
      : (r: seq<ThumbnailVariant>)
      requires n <= |specs| && n <= |seeds|
      ensures |r| == n
    {
      if n == 0 then []
      else
        Thumbnails(specs, seeds, topic, hook, c, ids, k, n - 1)
        + [ThumbnailAt(specs[n - 1], seeds[n - 1], topic, hook, c, ids(k + n - 1))]
    }

    /** Thumbnail i of the list is the one made from spec i and seed i with uuid `ids(k + i)`. */
    lemma {:induction false} ThumbnailsAt(specs: seq<PromptSpec>, seeds: seq<int>, topic: string, hook: string, c: Collaborators, ids: nat -> UuidText, k: nat, n: nat)
      requires n <= |specs| && n <= |seeds|
      ensures forall i {:trigger Thumbnails(specs, seeds, topic, hook, c, ids, k, n)[i]} :: 0 <= i < n ==>
        Thumbnails(specs, seeds, topic, hook, c, ids, k, n)[i] == ThumbnailAt(specs[i], seeds[i], topic, hook, c, ids(k + i))
    {
      if n > 0 {
        ThumbnailsAt(specs, seeds, topic, hook, c, ids, k, n - 1);
        var rest := Thumbnails(specs, seeds, topic, hook, c, ids, k, n - 1);
        var last := ThumbnailAt(specs[n - 1], seeds[n - 1], topic, hook, c, ids(k + n - 1));
        var r := Thumbnails(specs, seeds, topic, hook, c, ids, k, n);
        assert r == rest + [last];
        forall i | 0 <= i < n
          ensures r[i] == ThumbnailAt(specs[i], seeds[i], topic, hook, c, ids(k + i))
        {
          if i < n - 1 {
            assert r[i] == rest[i];
          }
        }
      }
    }

    /**
     * `run` makes three thumbnails with the styles face_focused, product_focused and text_heavy in
     * that order, consecutive uuids, the seeds of positions 0, 1 and 2 (each between 1 and
     * 2^32 - 1), prompts that open with the fixed prefix and the style's direction, and URLs under
     * the base that end with the query of their seed and the configured size.
     */
    lemma ThumbnailsShape(workflowId: string, topic: string, hook: string, c: Collaborators, ids: nat -> UuidText, k: nat)
      ensures var ts := Thumbnails(PromptSpecs, Seeds(workflowId, c.sha256Hex, |PromptSpecs|), topic, hook, c, ids, k, |PromptSpecs|);
        && |ts| == 3
        && [ts[0].style, ts[1].style, ts[2].style] == ["face_focused", "product_focused", "text_heavy"]
        && (forall i :: 0 <= i < 3 ==>
              && ts[i].id == ids(k + i)
              && ts[i].seed == SeedFor(workflowId, i, c.sha256Hex) && 1 <= ts[i].seed < 0x1_0000_0000
              && StartsWith(ts[i].prompt, PromptPrefix + PromptSpecs[i].direction + topic)
              && StartsWith(ts[i].imageUrl, baseUrl + "/")
              && EndsWith(ts[i].imageUrl, "?" + Query(ts[i].seed, width, height)))
    {
      var seeds := Seeds(workflowId, c.sha256Hex, |PromptSpecs|);
      SeedsAt(workflowId, c.sha256Hex, |PromptSpecs|);
      ThumbnailsAt(PromptSpecs, seeds, topic, hook, c, ids, k, |PromptSpecs|);
      forall i | 0 <= i < 3
        ensures var th := ThumbnailAt(PromptSpecs[i], seeds[i], topic, hook, c, ids(k + i));
          && th.id == ids(k + i) && th.style == PromptSpecs[i].style && th.seed == seeds[i]
          && StartsWith(th.prompt, PromptPrefix + PromptSpecs[i].direction + topic)
          && StartsWith(th.imageUrl, baseUrl + "/")
          && EndsWith(th.imageUrl, "?" + Query(seeds[i], width, height))
      {
        ThumbnailAtShape(PromptSpecs[i], seeds[i], topic, hook, c, ids(k + i));
      }
    }

    /** `_resolve_script`: scan the stored scripts for the selected id; draw a uuid only for the fallback. */
    method ResolveScript(selected: Option<string>, scripts: seq<ScriptVariant>, topic: string, uuids: UuidSource)
      returns (script: ScriptVariant)
      modifies uuids`drawn
      ensures script == ResolvedScript(selected, scripts, topic, uuids.ids(old(uuids.drawn)))
      ensures uuids.drawn == old(uuids.drawn) + (if scripts == [] then 1 else 0)
    {
      if Truthy(selected) {
        var i := 0;
        while i < |scripts|
          invariant 0 <= i <= |scripts|
          invariant forall j :: 0 <= j < i ==> scripts[j].id != selected.value
          invariant uuids.drawn == old(uuids.drawn)
        {
          if scripts[i].id == selected.value {
            assert FirstWithId(scripts, selected.value) == Some(i);
            return scripts[i];
          }
          i := i + 1;
        }
      }
      if scripts != [] {
        return scripts[0];
      }
      var id := uuids.Next();
      return FallbackScript(topic, id);
    }

    /** The loop of `run`: one thumbnail per prompt spec, in order, each with the seed of its position and a fresh uuid. */
    method MakeThumbnails(workflowId: string, topic: string, hook: string, c: Collaborators, uuids: UuidSource)
      returns (thumbnails: seq<ThumbnailVariant>)
      modifies uuids`drawn
      ensures thumbnails == Thumbnails(PromptSpecs, Seeds(workflowId, c.sha256Hex, |PromptSpecs|), topic, hook, c, uuids.ids, old(uuids.drawn), |PromptSpecs|)
      ensures uuids.drawn == old(uuids.drawn) + |PromptSpecs|
    {
      ghost var seeds := Seeds(workflowId, c.sha256Hex, |PromptSpecs|);
      ghost var start := uuids.drawn;
      ghost var ids := uuids.ids;
      SeedsAt(workflowId, c.sha256Hex, |PromptSpecs|);
      thumbnails := [];
      var index := 0;
      while index < |PromptSpecs|
        invariant 0 <= index <= |PromptSpecs|
        invariant uuids.drawn == start + index
        invariant thumbnails == Thumbnails(PromptSpecs, seeds, topic, hook, c, ids, start, index)
      {
        var seed := SeedFor(workflowId, index, c.sha256Hex);
        assert seed == seeds[index];
        var id := uuids.Next();
        assert id == ids(start + index + 1 - 1);
        thumbnails := thumbnails + [ThumbnailAt(PromptSpecs[index], seed, topic, hook, c, id)];
        index := index + 1;
      }
    }

    /**
     * `run`: the thumbnails for the resolved script's hook; the thumbnail choice and its approval
     * flag are cleared, the script fields are left alone.
     */
    method Run(s: WorkflowState, c: Collaborators, uuids: UuidSource)
      modifies s`thumbnailVariants, s`selectedThumbnailId, s`approval, s`currentStep, s`updatedTs, uuids`drawn
      ensures var k := old(uuids.drawn) + (if old(s.scriptVariants) == [] then 1 else 0);
        var hook := ResolvedScript(old(s.selectedScriptId), old(s.scriptVariants), s.topic, uuids.ids(old(uuids.drawn))).hook;
        && s.thumbnailVariants == Thumbnails(PromptSpecs, Seeds(s.workflowId, c.sha256Hex, |PromptSpecs|), s.topic, hook, c, uuids.ids, k, |PromptSpecs|)
        && uuids.drawn == k + |PromptSpecs|
      ensures s.selectedThumbnailId.None?
      ensures s.approval == old(s.approval).(thumbnailsApproved := false)
      ensures s.currentStep == "thumbnails_generated" && s.updatedTs == Trunc(c.now)
    {
      var script := ResolveScript(s.selectedScriptId, s.scriptVariants, s.topic, uuids);
      var thumbnails := MakeThumbnails(s.workflowId, s.topic, script.hook, c, uuids);
      StoreThumbnails(s, thumbnails, c.now);
    }

    /** The assignments at the end of `run`. */
    static method StoreThumbnails(s: WorkflowState, thumbnails: seq<ThumbnailVariant>, now: real)
      modifies s`thumbnailVariants, s`selectedThumbnailId, s`approval, s`currentStep, s`updatedTs
      ensures s.thumbnailVariants == thumbnails && s.selectedThumbnailId.None?
      ensures s.approval == old(s.approval).(thumbnailsApproved := false)
      ensures s.currentStep == "thumbnails_generated" && s.updatedTs == Trunc(now)
    {
      s.thumbnailVariants := thumbnails;
      s.selectedThumbnailId := None;
      s.approval := s.approval.(thumbnailsApproved := false);
      s.currentStep := "thumbnails_generated";
      s.updatedTs := Trunc(now);
    }
  }
}
