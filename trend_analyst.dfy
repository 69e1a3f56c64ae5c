/** The trend node: a fixed trend report for the topic, tagged with the primary target platform. */
module TrendAnalyst {
  import opened Wrappers
  import opened Externals
  import opened Strings
  import opened State

  /** The first target platform, or "youtube" when there is none. */
  function PrimaryPlatform(platforms: seq<string>): (p: string)
    ensures platforms != [] ==> p == platforms[0]
    ensures platforms == [] ==> p == "youtube"
  {
    if platforms != [] then platforms[0] else "youtube"
  }

  /** The three hook suggestions, each built around the topic. */
  function SuggestedHooks(topic: string): seq<string> {
    [ "Stop scrolling if you care about " + topic,
      "The biggest mistake creators make about " + topic,
      "POV: You finally figured out " + topic ]
  }

  /** The static trend report. */
  function TrendFor(topic: string, platforms: seq<string>): (t: TrendData)
    ensures t.platform == PrimaryPlatform(platforms)
    ensures t.suggestedHooks == SuggestedHooks(topic)
  {
    TrendData(
      "educational_hacks", 0.84, SuggestedHooks(topic), ["trending_sound_stub_01", "original_audio"],
      "medium", "18:00-20:00 EST", PrimaryPlatform(platforms), "mock_static_json")
  }

  /** Every suggested hook mentions the topic, as its closing words. */
  lemma {:induction false} HooksMentionTopic(topic: string)
    ensures |SuggestedHooks(topic)| == 3
    ensures forall i :: 0 <= i < 3 ==> EndsWith(SuggestedHooks(topic)[i], topic) && Contains(SuggestedHooks(topic)[i], topic)
  {
    var hooks := SuggestedHooks(topic);
    forall i | 0 <= i < 3
      ensures EndsWith(hooks[i], topic) && Contains(hooks[i], topic)
    {
      var h := hooks[i];
      var start := |h| - |topic|;
      assert h[start..] == topic;
      assert h[start..start + |topic|] == topic;
      assert OccursAt(h, topic, start);
    }
  }

  /** `TrendAnalystAgent.run` */
  method Run(s: WorkflowState, now: real)
    modifies s`trendData, s`currentStep, s`updatedTs
    ensures s.trendData == Some(TrendFor(s.topic, s.targetPlatforms))
    ensures s.currentStep == "trend_analysis_complete"
    ensures s.updatedTs == Trunc(now)
  {
    s.trendData := Some(TrendFor(s.topic, s.targetPlatforms));
    s.currentStep := "trend_analysis_complete";
    s.updatedTs := Trunc(now);
  }
}
