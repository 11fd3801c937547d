/** The about section (src/sections/AboutSection.tsx): its empty-content guard, the statistics
    with their labels and counters, the portfolio grid's alt texts and per-image animation
    presence, and the one-shot flag that starts the counters. */
module About {
  import opened Wrappers
  import opened I18n
  import opened Config

  /** The label under statistic `index`: the first three have their own, every later one is
      the customers label. */
  function StatLabel(s: StatsTranslations, index: nat): (caption: string)
    ensures index == 0 ==> caption == s.fromYear
    ensures index == 1 ==> caption == s.years
    ensures index == 2 ==> caption == s.reviews
    ensures index >= 3 ==> caption == s.customers
  {
    if index == 0 then s.fromYear
    else if index == 1 then s.years
    else if index == 2 then s.reviews
    else s.customers
  }

  /** `t.about.portfolioAlts[index] ?? image.alt`: a translated alt, even an empty one, wins
      whenever the translation has an entry at that index. */
  function PortfolioAlt(alts: seq<string>, index: nat, image: PortfolioImage): (alt: string)
    ensures index < |alts| ==> alt == alts[index]
    ensures index >= |alts| ==> alt == image.alt
  {
    if index < |alts| then alts[index] else image.alt
  }

  /** The side each grid image is revealed from; the rotation, parallax and delay numbers
      that go with it are animation detail. */
  datatype ClipFrom = FromLeft | FromTop | FromRight | FromBottom
  datatype AnimConfig = AnimConfig(clipFrom: ClipFrom)

  const imageAnimConfigs: seq<AnimConfig> := [
    AnimConfig(FromLeft), AnimConfig(FromTop), AnimConfig(FromRight),
    AnimConfig(FromBottom), AnimConfig(FromRight), AnimConfig(FromLeft)
  ]

  /** `imageAnimConfigs[i]`, absent past the sixth image. */
  function AnimConfigAt(i: nat): (cfg: Option<AnimConfig>)
    ensures cfg.Some? <==> i < 6
    ensures cfg.Some? ==> cfg.value == imageAnimConfigs[i]
  {
    if i < |imageAnimConfigs| then Some(imageAnimConfigs[i]) else None
  }

  datatype StatView = StatView(end: int, suffix: string, caption: string)
  datatype ImageView = ImageView(src: string, alt: string, animation: Option<AnimConfig>)

  datatype AboutView = AboutView(
    title: string, description: string,
    stats: Option<seq<StatView>>, images: seq<ImageView>, accent: Option<string>)

  function RenderStats(stats: seq<StatItem>, s: StatsTranslations, from: nat): (r: seq<StatView>)
    requires from <= |stats|
    ensures |r| == |stats| - from
    ensures forall k :: 0 <= k < |r| ==>
      r[k] == StatView(stats[from + k].value, stats[from + k].suffix, StatLabel(s, from + k))
    decreases |stats| - from
  {
    if from == |stats| then []
    else [StatView(stats[from].value, stats[from].suffix, StatLabel(s, from))] + RenderStats(stats, s, from + 1)
  }

  function RenderImages(images: seq<PortfolioImage>, alts: seq<string>, from: nat): (r: seq<ImageView>)
    requires from <= |images|
    ensures |r| == |images| - from
    ensures forall k :: 0 <= k < |r| ==>
      r[k] == ImageView(images[from + k].src, PortfolioAlt(alts, from + k, images[from + k]), AnimConfigAt(from + k))
    decreases |images| - from
  {
    if from == |images| then []
    else
      var view := ImageView(images[from].src, PortfolioAlt(alts, from, images[from]), AnimConfigAt(from));
      [view] + RenderImages(images, alts, from + 1)
  }

  /** Absent iff both title lines are empty and the grid has no images; otherwise the stats
      block appears iff there are statistics, the accent iff its text is non-empty, and
      every image keeps its place in the grid. */
  function RenderAbout(cfg: IntroGridConfig, stats: seq<StatItem>, t: Translations): (r: Option<AboutView>)
    ensures r.None? <==> cfg.titleLine1 == "" && cfg.titleLine2 == "" && |cfg.portfolioImages| == 0
    ensures r.Some? ==> r.value.title == t.about.title2 && r.value.description == t.about.description
    ensures r.Some? ==> (r.value.stats.Some? <==> |stats| > 0)
    ensures r.Some? && |stats| > 0 ==> r.value.stats == Some(RenderStats(stats, t.stats, 0))
    ensures r.Some? ==> r.value.images == RenderImages(cfg.portfolioImages, t.about.portfolioAlts, 0)
    ensures r.Some? ==> (r.value.accent.Some? <==> cfg.accentText != "")
  {
    if cfg.titleLine1 == "" && cfg.titleLine2 == "" && |cfg.portfolioImages| == 0 then None
    else Some(AboutView(
      t.about.title2, t.about.description,
      if |stats| > 0 then Some(RenderStats(stats, t.stats, 0)) else None,
      RenderImages(cfg.portfolioImages, t.about.portfolioAlts, 0),
      if cfg.accentText != "" then Some(cfg.accentText) else None))
  }

  /** The configured section renders all four statistics with their own labels, and each of its
      six images has an animation; a seventh image would have none. */
  lemma ShippedAboutRenders(t: Translations)
    ensures var r := RenderAbout(introGridConfig, whyChooseMeStats, t);
      r.Some? && r.value.stats.Some? && |r.value.stats.value| == 4
      && r.value.stats.value[0].caption == t.stats.fromYear
      && r.value.stats.value[1].caption == t.stats.years
      && r.value.stats.value[2].caption == t.stats.reviews
      && r.value.stats.value[3].caption == t.stats.customers
      && r.value.accent.None?
      && |r.value.images| == 6
      && forall k :: 0 <= k < 6 ==> r.value.images[k].animation.Some?
    ensures AnimConfigAt(6).None?
  {
  }

  /** The state of one `Counter`: the shown `count`, the last stored `countRef`, whether a
      frame is scheduled, and the animation window. Times are in milliseconds. */
  datatype CounterState = CounterState(count: int, countRef: int, running: bool, startTime: real, endTime: real)

  const InitialCounter := CounterState(0, 0, false, 0.0, 0.0)

  /** `(duration || 2) * 1000`. */
  function DurationMs(duration: real): (ms: real)
    ensures duration == 0.0 ==> ms == 2000.0
    ensures duration != 0.0 ==> ms == duration * 1000.0
  {
    (if duration == 0.0 then 2.0 else duration) * 1000.0
  }

  /** The effect: nothing while `shouldAnimate` is false; otherwise it opens a window from
      `now` and schedules the first frame. */
  function StartCounter(s: CounterState, now: real, duration: real, shouldAnimate: bool): (r: CounterState)
    ensures !shouldAnimate ==> r == s
    ensures shouldAnimate ==> r.running && r.startTime == now && r.endTime == now + DurationMs(duration)
    ensures r.count == s.count && r.countRef == s.countRef
  {
    if !shouldAnimate then s
    else s.(running := true, startTime := now, endTime := now + DurationMs(duration))
  }

  /** One `updateCount` frame, with `newCount` the floored eased value of that frame. */
  function CounterFrame(s: CounterState, end: int, now: real, newCount: int): (r: CounterState)
    ensures !s.running ==> r == s
    ensures s.running ==> r.countRef == newCount && (r.running <==> now < s.endTime)
    ensures s.running && now < s.endTime ==>
      r.count == (if newCount != s.countRef then newCount else s.count)
    ensures s.running && now >= s.endTime ==> r.count == end
    ensures r.startTime == s.startTime && r.endTime == s.endTime
  {
    if !s.running then s
    else
      var stored := if newCount != s.countRef then s.(countRef := newCount, count := newCount) else s;
      if now < s.endTime then stored else stored.(count := end, running := false)
  }

  /** A sequence of frames at the given times with the given floored values. */
  function RunFrames(s: CounterState, end: int, frames: seq<(real, int)>): (r: CounterState)
    ensures frames == [] ==> r == s
    ensures r.startTime == s.startTime && r.endTime == s.endTime
    decreases |frames|
  {
    if frames == [] then s else RunFrames(CounterFrame(s, end, frames[0].0, frames[0].1), end, frames[1..])
  }

  /** A frame that repeats the stored value does not touch what is shown. */
  lemma RepeatedValueKeepsCount(s: CounterState, end: int, now: real)
    requires s.running && now < s.endTime
    ensures CounterFrame(s, end, now, s.countRef) == s
  {
  }

  /** While the eased values stay within `[0, end]`, so does the shown count. */
  lemma {:induction false} CountStaysInRange(s: CounterState, end: int, frames: seq<(real, int)>)
    requires 0 <= s.count <= end
    requires forall k :: 0 <= k < |frames| ==> 0 <= frames[k].1 <= end
    ensures 0 <= RunFrames(s, end, frames).count <= end
    decreases |frames|
  {
    if frames != [] {
      var next := CounterFrame(s, end, frames[0].0, frames[0].1);
      assert forall k :: 0 <= k < |frames[1..]| ==> frames[1..][k] == frames[k + 1];
      CountStaysInRange(next, end, frames[1..]);
    }
  }

  /** Once a frame reaches the end time, the counter stops on exactly `end`, whatever later
      frames would have computed. */
  lemma {:induction false} CounterFinishesOnEnd(s: CounterState, end: int, frames: seq<(real, int)>)
    requires s.running && frames != [] && frames[|frames| - 1].0 >= s.endTime
    ensures RunFrames(s, end, frames).count == end
    ensures !RunFrames(s, end, frames).running
    decreases |frames|
  {
    var next := CounterFrame(s, end, frames[0].0, frames[0].1);
    if |frames| > 1 {
      if next.running {
        CounterFinishesOnEnd(next, end, frames[1..]);
      } else {
        StoppedStaysStopped(next, end, frames[1..]);
      }
    }
  }

  lemma {:induction false} StoppedStaysStopped(s: CounterState, end: int, frames: seq<(real, int)>)
    requires !s.running
    ensures RunFrames(s, end, frames) == s
    decreases |frames|
  {
    if frames != [] {
      StoppedStaysStopped(s, end, frames[1..]);
    }
  }

  /** One `Counter` component. */
  class Counter {
    const end: int
    const duration: real
    var count: int
    var countRef: int
    var running: bool
    var startTime: real
    var endTime: real

    function State(): CounterState
      reads this
    {
      CounterState(count, countRef, running, startTime, endTime)
    }

    /** `duration` defaults to 2 seconds. */
    constructor(end: int, duration: real)
      ensures this.end == end && this.duration == duration
      ensures State() == InitialCounter
    {
      this.end := end;
      this.duration := duration;
      count, countRef, running, startTime, endTime := 0, 0, false, 0.0, 0.0;
    }

    /** The effect run with the current `shouldAnimate`. */
    method Start(now: real, shouldAnimate: bool)
      modifies this
      ensures State() == StartCounter(old(State()), now, duration, shouldAnimate)
    {
      if !shouldAnimate {
        return;
      }
      startTime := now;
      endTime := now + DurationMs(duration);
      running := true;
    }

    /** A scheduled animation frame. */
    method Frame(now: real, newCount: int)
      modifies this
      ensures State() == CounterFrame(old(State()), end, now, newCount)
    {
      if !running {
        return;
      }
      if newCount != countRef {
        countRef := newCount;
        count := newCount;
      }
      if now >= endTime {
        count := end;
        running := false;
      }
    }
  }

  /** `shouldAnimateStats`: false until the stats row first scrolls into view. */
  class StatsGate {
    var shouldAnimateStats: bool

    constructor()
      ensures !shouldAnimateStats
    {
      shouldAnimateStats := false;
    }

    /** The one-shot trigger's `onEnter`; it only ever sets the flag. */
    method OnEnter()
      modifies this
      ensures shouldAnimateStats
    {
      shouldAnimateStats := true;
    }
  }
}
