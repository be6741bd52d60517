/**
 The streaming pipeline's adaptive quality controller: a hysteresis loop over
 three step indices and two timers, driven by CPU, packet loss and round trip.
 */
module AdaptiveQuality {
  import opened Wrappers

  /** Three steps per table; the last index is 2. */
  const LAST: nat := 2

  datatype Config = Config(
    cpuHighPercent: int,
    cpuLowPercent: int,
    cpuThresholdSec: int,
    packetLossHighPercent: real,
    rttHighMs: int,
    bitrateSteps: int -> int)

  /** A timer holds the clock value at which it started, 0 when it is off. */
  datatype Quality = Quality(
    resolutionIdx: nat,
    fpsIdx: nat,
    bitrateIdx: nat,
    cpuHighSinceMs: int,
    cpuLowSinceMs: int)

  /** The controller with the bitrates it has set; `encoder` is None when there is no encoder. */
  datatype State = State(q: Quality, encoder: Option<int>, pacing: int)

  datatype Sample = Sample(nowMs: int, cpuPercent: int, rttMs: int, packetLoss: real)

  // ------------------------------------------------------------------
  // One check, in its three parts
  // ------------------------------------------------------------------

  function ThresholdMs(cfg: Config): int {
    cfg.cpuThresholdSec * 1000
  }

  predicate High(cfg: Config, x: Sample) {
    x.cpuPercent >= cfg.cpuHighPercent
  }

  predicate Low(cfg: Config, x: Sample) {
    !High(cfg, x) && x.cpuPercent <= cfg.cpuLowPercent
  }

  function Lowered(q: Quality): Quality {
    if q.fpsIdx < LAST then q.(fpsIdx := q.fpsIdx + 1, cpuHighSinceMs := 0)
    else if q.resolutionIdx < LAST then q.(resolutionIdx := q.resolutionIdx + 1, cpuHighSinceMs := 0)
    else q
  }

  function Restored(q: Quality): Quality {
    if q.resolutionIdx > 0 then q.(resolutionIdx := q.resolutionIdx - 1, cpuLowSinceMs := 0)
    else if q.fpsIdx > 0 then q.(fpsIdx := q.fpsIdx - 1, cpuLowSinceMs := 0)
    else q
  }

  function CpuStep(cfg: Config, q: Quality, x: Sample): Quality {
    if High(cfg, x) then
      var timed := q.(cpuHighSinceMs := if q.cpuHighSinceMs == 0 then x.nowMs else q.cpuHighSinceMs,
                      cpuLowSinceMs := 0);
      if x.nowMs - timed.cpuHighSinceMs >= ThresholdMs(cfg) then Lowered(timed) else timed
    else if Low(cfg, x) then
      var timed := q.(cpuLowSinceMs := if q.cpuLowSinceMs == 0 then x.nowMs else q.cpuLowSinceMs,
                      cpuHighSinceMs := 0);
      if x.nowMs - timed.cpuLowSinceMs >= ThresholdMs(cfg) then Restored(timed) else timed
    else q.(cpuHighSinceMs := 0, cpuLowSinceMs := 0)
  }

  function LossStep(cfg: Config, q: Quality, x: Sample): Quality {
    if x.packetLoss > cfg.packetLossHighPercent && q.bitrateIdx < LAST then q.(bitrateIdx := q.bitrateIdx + 1)
    else if x.packetLoss <= cfg.packetLossHighPercent && x.packetLoss < cfg.packetLossHighPercent / 2.0
            && q.bitrateIdx > 0 then
      q.(bitrateIdx := q.bitrateIdx - 1)
    else q
  }

  function RttStep(cfg: Config, q: Quality, x: Sample): Quality {
    if x.rttMs > cfg.rttHighMs && q.fpsIdx < LAST then q.(fpsIdx := q.fpsIdx + 1) else q
  }

  function Level(q: Quality): nat {
    q.fpsIdx + q.resolutionIdx
  }

  predicate CpuAdjusts(cfg: Config, q: Quality, x: Sample) {
    Level(CpuStep(cfg, q, x)) != Level(q)
  }

  predicate LossAdjusts(cfg: Config, q: Quality, x: Sample) {
    LossStep(cfg, q, x).bitrateIdx != q.bitrateIdx
  }

  function SetBitrate(s: State, bitrate: int): State {
    if s.encoder.Some? then s.(encoder := Some(bitrate), pacing := bitrate) else s
  }

  function AfterCpu(cfg: Config, s: State, x: Sample): State {
    var next := s.(q := CpuStep(cfg, s.q, x));
    if CpuAdjusts(cfg, s.q, x) then SetBitrate(next, cfg.bitrateSteps(next.q.bitrateIdx)) else next
  }

  function AfterLoss(cfg: Config, s: State, x: Sample): State {
    var next := s.(q := LossStep(cfg, s.q, x));
    if LossAdjusts(cfg, s.q, x) then SetBitrate(next, cfg.bitrateSteps(next.q.bitrateIdx)) else next
  }

  function AfterRtt(cfg: Config, s: State, x: Sample): State {
    s.(q := RttStep(cfg, s.q, x))
  }

  function Tick(cfg: Config, s: State, x: Sample): State {
    AfterRtt(cfg, AfterLoss(cfg, AfterCpu(cfg, s, x), x), x)
  }

  // ------------------------------------------------------------------
  // The method
  // ------------------------------------------------------------------

  class StreamPipeline {
    const config: Config
    var resolutionIdx: nat
    var fpsIdx: nat
    var bitrateIdx: nat
    var cpuHighSinceMs: int
    var cpuLowSinceMs: int
    var encoder: Option<int>
    var pacing: int

    ghost function Abs(): State
      reads this
    {
      State(Quality(resolutionIdx, fpsIdx, bitrateIdx, cpuHighSinceMs, cpuLowSinceMs), encoder, pacing)
    }

    constructor (config: Config, encoder: Option<int>, pacing: int)
      ensures this.config == config
      ensures Abs() == State(Quality(0, 0, 0, 0, 0), encoder, pacing)
    {
      this.config, this.encoder, this.pacing := config, encoder, pacing;
      resolutionIdx, fpsIdx, bitrateIdx, cpuHighSinceMs, cpuLowSinceMs := 0, 0, 0, 0, 0;
    }

    method SetBitrateAndKeyFrame(bitrate: int)
      modifies this`encoder, this`pacing
      ensures Abs() == SetBitrate(old(Abs()), bitrate)
    {
      if encoder.Some? {
        encoder := Some(bitrate);
        pacing := bitrate;
      }
    }

    method CheckAdaptiveQuality(x: Sample)
      modifies this
      ensures Abs() == Tick(config, old(Abs()), x)
    {
      AdaptToCpu(x);
      AdaptToTransport(x);
    }

    method AdaptToCpu(x: Sample)
      modifies this
      ensures Abs() == AfterCpu(config, old(Abs()), x)
    {
      if x.cpuPercent >= config.cpuHighPercent {
        if cpuHighSinceMs == 0 {
          cpuHighSinceMs := x.nowMs;
        }
        cpuLowSinceMs := 0;
        if x.nowMs - cpuHighSinceMs >= config.cpuThresholdSec * 1000 {
          var adjusted := false;
          if fpsIdx < 2 {
            fpsIdx := fpsIdx + 1;
            adjusted := true;
          } else if resolutionIdx < 2 {
            resolutionIdx := resolutionIdx + 1;
            adjusted := true;
          }
          if adjusted {
            cpuHighSinceMs := 0;
            SetBitrateAndKeyFrame(config.bitrateSteps(bitrateIdx));
          }
        }
      } else if x.cpuPercent <= config.cpuLowPercent {
        if cpuLowSinceMs == 0 {
          cpuLowSinceMs := x.nowMs;
        }
        cpuHighSinceMs := 0;
        if x.nowMs - cpuLowSinceMs >= config.cpuThresholdSec * 1000 {
          var restored := false;
          if resolutionIdx > 0 {
            resolutionIdx := resolutionIdx - 1;
            restored := true;
          } else if fpsIdx > 0 {
            fpsIdx := fpsIdx - 1;
            restored := true;
          }
          if restored {
            cpuLowSinceMs := 0;
            SetBitrateAndKeyFrame(config.bitrateSteps(bitrateIdx));
          }
        }
      } else {
        cpuHighSinceMs := 0;
        cpuLowSinceMs := 0;
      }
    }

    method AdaptToTransport(x: Sample)
      modifies this
      ensures Abs() == AfterRtt(config, AfterLoss(config, old(Abs()), x), x)
    {
      if x.packetLoss > config.packetLossHighPercent {
        if bitrateIdx < 2 {
          bitrateIdx := bitrateIdx + 1;
          SetBitrateAndKeyFrame(config.bitrateSteps(bitrateIdx));
        }
      } else if x.packetLoss < config.packetLossHighPercent / 2.0 {
        if bitrateIdx > 0 {
          bitrateIdx := bitrateIdx - 1;
          SetBitrateAndKeyFrame(config.bitrateSteps(bitrateIdx));
        }
      }

      assert Abs() == AfterLoss(config, old(Abs()), x);

      if x.rttMs > config.rttHighMs {
        if fpsIdx < 2 {
          fpsIdx := fpsIdx + 1;
        }
      }
    }
  }

  // ------------------------------------------------------------------
  // What every tick keeps
  // ------------------------------------------------------------------

  ghost predicate Sound(q: Quality) {
    && q.resolutionIdx <= LAST && q.fpsIdx <= LAST && q.bitrateIdx <= LAST
    && (q.resolutionIdx > 0 ==> q.fpsIdx == LAST)
    && (q.cpuHighSinceMs == 0 || q.cpuLowSinceMs == 0)
  }

  ghost predicate InSync(cfg: Config, s: State) {
    s.encoder.Some? ==> s.encoder.value == s.pacing == cfg.bitrateSteps(s.q.bitrateIdx)
  }

  lemma TickKeepsSound(cfg: Config, s: State, x: Sample)
    requires Sound(s.q)
    ensures Sound(Tick(cfg, s, x).q)
  {}

  /** The level alone fixes both picture indices: CPU adaptation walks one chain. */
  lemma LevelFixesIndices(q: Quality, p: Quality)
    requires Sound(q) && Sound(p)
    ensures Level(q) == Level(p) <==> q.fpsIdx == p.fpsIdx && q.resolutionIdx == p.resolutionIdx
  {}

  /** One CPU adjustment moves one step along the chain, in the direction of the load. */
  lemma CpuMovesOneStep(cfg: Config, q: Quality, x: Sample)
    requires Sound(q)
    ensures Level(CpuStep(cfg, q, x)) == Level(q) + 1 ==> x.cpuPercent >= cfg.cpuHighPercent
    ensures Level(CpuStep(cfg, q, x)) == Level(q) - 1 ==>
              x.cpuPercent < cfg.cpuHighPercent && x.cpuPercent <= cfg.cpuLowPercent
    ensures Level(q) - 1 <= Level(CpuStep(cfg, q, x)) <= Level(q) + 1
    ensures CpuAdjusts(cfg, q, x) ==>
            var q' := CpuStep(cfg, q, x); q'.cpuHighSinceMs == q'.cpuLowSinceMs == 0
  {}

  /** After a tick that adjusts, encoder and pacing agree with the table, and they stay so. */
  lemma TickSynchronises(cfg: Config, s: State, x: Sample)
    requires CpuAdjusts(cfg, s.q, x) || LossAdjusts(cfg, CpuStep(cfg, s.q, x), x) || InSync(cfg, s)
    ensures InSync(cfg, Tick(cfg, s, x))
    ensures Tick(cfg, s, x).encoder.Some? <==> s.encoder.Some?
  {}

  /** Otherwise, or without an encoder, a tick sets no bitrate. */
  lemma TickLeavesBitrateAlone(cfg: Config, s: State, x: Sample)
    requires s.encoder.None? || (!CpuAdjusts(cfg, s.q, x) && !LossAdjusts(cfg, CpuStep(cfg, s.q, x), x))
    ensures var s' := Tick(cfg, s, x);
            && s'.encoder == s.encoder && s'.pacing == s.pacing
            && (!LossAdjusts(cfg, CpuStep(cfg, s.q, x), x) ==> s'.q.bitrateIdx == s.q.bitrateIdx)
  {}

  /** The sample alone says how loss moves the bitrate, and when the round trip takes a step beside the CPU. */
  lemma TransportMoves(cfg: Config, s: State, x: Sample)
    requires Sound(s.q)
    ensures Tick(cfg, s, x).q.bitrateIdx ==
              if x.packetLoss > cfg.packetLossHighPercent then
                if s.q.bitrateIdx == LAST then LAST else s.q.bitrateIdx + 1
              else if x.packetLoss < cfg.packetLossHighPercent / 2.0 then
                if s.q.bitrateIdx == 0 then 0 else s.q.bitrateIdx - 1
              else s.q.bitrateIdx
    ensures var q := CpuStep(cfg, s.q, x);
            Level(Tick(cfg, s, x).q) == Level(q) + if x.rttMs > cfg.rttHighMs && q.fpsIdx < LAST then 1 else 0
  {}

  // ------------------------------------------------------------------
  // Runs
  // ------------------------------------------------------------------

  function Ticks(cfg: Config, s: State, xs: seq<Sample>): State
    decreases |xs|
  {
    if xs == [] then s else Tick(cfg, Ticks(cfg, s, xs[..|xs| - 1]), xs[|xs| - 1])
  }

  const Initial := Quality(0, 0, 0, 0, 0)

  lemma {:induction false} TicksKeepSound(cfg: Config, s: State, xs: seq<Sample>)
    requires Sound(s.q)
    ensures Sound(Ticks(cfg, s, xs).q)
    decreases |xs|
  {
    if xs != [] {
      TicksKeepSound(cfg, s, xs[..|xs| - 1]);
      TickKeepsSound(cfg, Ticks(cfg, s, xs[..|xs| - 1]), xs[|xs| - 1]);
    }
  }

  /** Does the k-th tick of a run make a CPU adjustment? */
  ghost predicate AdjustsAt(cfg: Config, s: State, xs: seq<Sample>, k: nat)
    requires k < |xs|
  {
    CpuAdjusts(cfg, Ticks(cfg, s, xs[..k]).q, xs[k])
  }

  ghost predicate Clock(xs: seq<Sample>) {
    && (forall i :: 0 <= i < |xs| ==> xs[i].nowMs > 0)
    && (forall i, j :: 0 <= i < j < |xs| ==> xs[i].nowMs < xs[j].nowMs)
  }

  /** The load is high, or else it is low. */
  ghost predicate OnSide(cfg: Config, x: Sample, high: bool) {
    if high then x.cpuPercent >= cfg.cpuHighPercent
    else x.cpuPercent < cfg.cpuHighPercent && x.cpuPercent <= cfg.cpuLowPercent
  }

  /** From tick m up to tick k every sample is on one side and none adjusts. */
  ghost predicate Steady(cfg: Config, s: State, xs: seq<Sample>, m: nat, k: nat, high: bool)
    requires k <= |xs|
  {
    forall i :: m <= i < k ==> OnSide(cfg, xs[i], high) && !AdjustsAt(cfg, s, xs, i)
  }

  /** A running timer was started by a tick after which the load stayed on its side. */
  ghost predicate Explains(cfg: Config, s: State, xs: seq<Sample>, k: nat, since: int, high: bool)
    requires k <= |xs|
  {
    since == 0 || exists m :: 0 <= m < k && xs[m].nowMs == since && Steady(cfg, s, xs, m, k, high)
  }

  /** A timer that runs after a tick was started by it or kept by it, on the load's side. */
  lemma TimersAfterTick(cfg: Config, s: State, x: Sample)
    ensures var q := Tick(cfg, s, x).q;
            && (q.cpuHighSinceMs != 0 ==>
                  && High(cfg, x) && !CpuAdjusts(cfg, s.q, x)
                  && q.cpuHighSinceMs == if s.q.cpuHighSinceMs == 0 then x.nowMs else s.q.cpuHighSinceMs)
            && (q.cpuLowSinceMs != 0 ==>
                  && Low(cfg, x) && !CpuAdjusts(cfg, s.q, x)
                  && q.cpuLowSinceMs == if s.q.cpuLowSinceMs == 0 then x.nowMs else s.q.cpuLowSinceMs)
  {}

  lemma TicksNext(cfg: Config, s: State, xs: seq<Sample>, k: nat)
    requires k < |xs|
    ensures Ticks(cfg, s, xs[..k + 1]) == Tick(cfg, Ticks(cfg, s, xs[..k]), xs[k])
  {
    assert xs[..k + 1][..k] == xs[..k];
  }

  ghost predicate BothExplained(cfg: Config, s: State, xs: seq<Sample>, k: nat, q: Quality)
    requires k <= |xs|
  {
    Explains(cfg, s, xs, k, q.cpuHighSinceMs, true) && Explains(cfg, s, xs, k, q.cpuLowSinceMs, false)
  }

  lemma TimersStayExplained(cfg: Config, s: State, xs: seq<Sample>, k: nat)
    requires k < |xs| && BothExplained(cfg, s, xs, k, Ticks(cfg, s, xs[..k]).q)
    ensures BothExplained(cfg, s, xs, k + 1, Tick(cfg, Ticks(cfg, s, xs[..k]), xs[k]).q)
  {
    var before, q := Ticks(cfg, s, xs[..k]).q, Tick(cfg, Ticks(cfg, s, xs[..k]), xs[k]).q;
    TimersAfterTick(cfg, Ticks(cfg, s, xs[..k]), xs[k]);
    ExplainNext(cfg, s, xs, k + 1, before.cpuHighSinceMs, q.cpuHighSinceMs, true);
    ExplainNext(cfg, s, xs, k + 1, before.cpuLowSinceMs, q.cpuLowSinceMs, false);
  }

  lemma {:induction false} TimersExplained(cfg: Config, s: State, xs: seq<Sample>, k: nat)
    requires s.q == Initial && k <= |xs| && Clock(xs)
    ensures BothExplained(cfg, s, xs, k, Ticks(cfg, s, xs[..k]).q)
  {
    if k == 0 {
      assert xs[..k] == [];
    } else {
      TimersExplained(cfg, s, xs, k - 1);
      TimersStayExplained(cfg, s, xs, k - 1);
      TicksNext(cfg, s, xs, k - 1);
    }
  }

  lemma SteadyNext(cfg: Config, s: State, xs: seq<Sample>, m: nat, k: nat, high: bool)
    requires m < k <= |xs| && (m < k - 1 ==> Steady(cfg, s, xs, m, k - 1, high))
    requires OnSide(cfg, xs[k - 1], high) && !AdjustsAt(cfg, s, xs, k - 1)
    ensures Steady(cfg, s, xs, m, k, high)
  {}

  lemma ExplainNext(cfg: Config, s: State, xs: seq<Sample>, k: nat, before: int, since: int, high: bool)
    requires 0 < k <= |xs| && Explains(cfg, s, xs, k - 1, before, high)
    requires since != 0 ==>
               && OnSide(cfg, xs[k - 1], high) && !AdjustsAt(cfg, s, xs, k - 1)
               && since == if before == 0 then xs[k - 1].nowMs else before
    ensures Explains(cfg, s, xs, k, since, high)
  {
    if since != 0 {
      var m := k - 1;
      if before != 0 {
        m :| 0 <= m < k - 1 && xs[m].nowMs == before && Steady(cfg, s, xs, m, k - 1, high);
      }
      SteadyNext(cfg, s, xs, m, k, high);
      assert xs[m].nowMs == since;
    }
  }

  /**
   Every CPU adjustment is preceded by a window at least as long as the threshold
   in which all samples are on the same side and no other adjustment happens.
   */
  lemma AdjustmentHasWindow(cfg: Config, s: State, xs: seq<Sample>, k: nat) returns (m: nat)
    requires s.q == Initial && k < |xs| && Clock(xs)
    requires AdjustsAt(cfg, s, xs, k)
    ensures m <= k
    ensures xs[k].nowMs - xs[m].nowMs >= cfg.cpuThresholdSec * 1000
    ensures var high := xs[k].cpuPercent >= cfg.cpuHighPercent;
            OnSide(cfg, xs[k], high) && Steady(cfg, s, xs, m, k, high)
  {
    var q := Ticks(cfg, s, xs[..k]).q;
    TimersExplained(cfg, s, xs, k);
    var high := High(cfg, xs[k]);
    var since := if high then q.cpuHighSinceMs else q.cpuLowSinceMs;
    if since == 0 {
      m := k;
    } else {
      m :| 0 <= m < k && xs[m].nowMs == since && Steady(cfg, s, xs, m, k, high);
    }
  }

  /** Up to tick k the samples have stayed on the side of its own for at least the threshold, without adjustment. */
  ghost predicate WindowEnds(cfg: Config, s: State, xs: seq<Sample>, m: nat, k: nat, high: bool)
    requires m <= k < |xs|
  {
    && xs[k].nowMs - xs[m].nowMs >= cfg.cpuThresholdSec * 1000
    && OnSide(cfg, xs[k], high) && Steady(cfg, s, xs, m, k, high)
  }

  function Since(q: Quality, high: bool): int {
    if high then q.cpuHighSinceMs else q.cpuLowSinceMs
  }

  /** A running timer was started before any later tick. */
  lemma TimerIsPast(cfg: Config, s: State, xs: seq<Sample>, k: nat, j: nat, high: bool)
    requires s.q == Initial && k <= j < |xs| && Clock(xs)
    ensures var since := Since(Ticks(cfg, s, xs[..k]).q, high); since == 0 || 0 < since < xs[j].nowMs
  {
    TimersExplained(cfg, s, xs, k);
  }

  /** The timer of a side keeps running, from the first tick on that side at the latest. */
  lemma {:induction false} TimerRuns(cfg: Config, s: State, xs: seq<Sample>, m: nat, k: nat, high: bool)
    requires s.q == Initial && m < k <= |xs| && Clock(xs) && Steady(cfg, s, xs, m, k, high)
    ensures 0 < Since(Ticks(cfg, s, xs[..k]).q, high) <= xs[m].nowMs
    decreases k
  {
    TicksNext(cfg, s, xs, k - 1);
    TimerIsPast(cfg, s, xs, k - 1, k - 1, high);
    if m < k - 1 {
      TimerRuns(cfg, s, xs, m, k - 1, high);
    }
    SteadyTick(cfg, Ticks(cfg, s, xs[..k - 1]), xs[k - 1], high);
  }

  /** A tick on a side that does not adjust starts that side's timer, or lets it run. */
  lemma SteadyTick(cfg: Config, s: State, x: Sample, high: bool)
    requires OnSide(cfg, x, high) && !CpuAdjusts(cfg, s.q, x)
    ensures Since(Tick(cfg, s, x).q, high) == if Since(s.q, high) == 0 then x.nowMs else Since(s.q, high)
  {}

  /** One step down under high load, one up under low load, once the timer has run for the threshold. */
  lemma DueTick(cfg: Config, q: Quality, x: Sample, high: bool)
    requires Sound(q) && OnSide(cfg, x, high)
    requires x.nowMs - (if Since(q, high) == 0 then x.nowMs else Since(q, high)) >= ThresholdMs(cfg)
    ensures Level(CpuStep(cfg, q, x)) ==
              if high then if Level(q) == 4 then 4 else Level(q) + 1
              else if Level(q) == 0 then 0 else Level(q) - 1
  {}

  /** At the end of such a window the tick takes a step in the direction of the load, if there is one left. */
  lemma WindowAdjusts(cfg: Config, s: State, xs: seq<Sample>, m: nat, k: nat, high: bool)
    requires s.q == Initial && m <= k < |xs| && Clock(xs) && WindowEnds(cfg, s, xs, m, k, high)
    ensures var q := Ticks(cfg, s, xs[..k]).q;
            Level(CpuStep(cfg, q, xs[k])) ==
              if high then if Level(q) == 4 then 4 else Level(q) + 1
              else if Level(q) == 0 then 0 else Level(q) - 1
  {
    TicksKeepSound(cfg, s, xs[..k]);
    TimerIsPast(cfg, s, xs, k, k, high);
    if m < k {
      TimerRuns(cfg, s, xs, m, k, high);
    }
    DueTick(cfg, Ticks(cfg, s, xs[..k]).q, xs[k], high);
  }

  /**
   A tick adjusts to the CPU exactly when it ends a window of at least the threshold in
   which all samples are on its side and none adjusts, and a step is left in that direction.
   */
  lemma AdjustsIffWindowEnds(cfg: Config, s: State, xs: seq<Sample>, k: nat)
    requires s.q == Initial && k < |xs| && Clock(xs)
    ensures var q, high := Ticks(cfg, s, xs[..k]).q, xs[k].cpuPercent >= cfg.cpuHighPercent;
            AdjustsAt(cfg, s, xs, k) <==>
              && (exists m :: 0 <= m <= k && WindowEnds(cfg, s, xs, m, k, high))
              && Level(q) != if high then 4 else 0
  {
    TicksKeepSound(cfg, s, xs[..k]);
    var high := High(cfg, xs[k]);
    if AdjustsAt(cfg, s, xs, k) {
      var m := AdjustmentHasWindow(cfg, s, xs, k);
      assert WindowEnds(cfg, s, xs, m, k, high);
      WindowAdjusts(cfg, s, xs, m, k, high);
    } else if m :| 0 <= m <= k && WindowEnds(cfg, s, xs, m, k, high) {
      WindowAdjusts(cfg, s, xs, m, k, high);
    }
  }

  /** Two CPU adjustments are at least the threshold apart. */
  lemma AdjustmentsAreSpaced(cfg: Config, s: State, xs: seq<Sample>, i: nat, j: nat)
    requires s.q == Initial && i < j < |xs| && Clock(xs)
    requires AdjustsAt(cfg, s, xs, i) && AdjustsAt(cfg, s, xs, j)
    ensures xs[j].nowMs - xs[i].nowMs >= cfg.cpuThresholdSec * 1000
  {
    var m := AdjustmentHasWindow(cfg, s, xs, j);
    assert i < m;
  }

  // ------------------------------------------------------------------
  // Recovery
  // ------------------------------------------------------------------

  ghost predicate Quiet(cfg: Config, x: Sample) {
    && OnSide(cfg, x, false)
    && x.packetLoss <= cfg.packetLossHighPercent && x.packetLoss < cfg.packetLossHighPercent / 2.0
    && x.rttMs <= cfg.rttHighMs
  }

  ghost predicate QuietAt(cfg: Config, start: int, xs: seq<Sample>, gap: int, i: nat)
    requires i < |xs|
  {
    var last := if i == 0 then start else xs[i - 1].nowMs;
    Quiet(cfg, xs[i]) && last < xs[i].nowMs <= last + gap
  }

  /** Quiet ticks after time `start`, never more than `gap` apart. */
  ghost predicate QuietRun(cfg: Config, start: int, xs: seq<Sample>, gap: int) {
    forall i :: 0 <= i < |xs| ==> QuietAt(cfg, start, xs, gap, i)
  }

  function Last(start: int, xs: seq<Sample>): int {
    if xs == [] then start else xs[|xs| - 1].nowMs
  }

  /** The time that the given number of restoring steps may take. */
  function Rounds(level: nat, round: int): int {
    if level == 0 then 0 else round + Rounds(level - 1, round)
  }

  function Max(a: int, b: int): int {
    if a < b then b else a
  }

  /** The latest time at which so many steps are taken, seen from a tick at `last` with that side's timer. */
  function Deadline(cfg: Config, steps: nat, since: int, last: int, gap: int): int {
    var round := ThresholdMs(cfg) + 2 * gap;
    if steps == 0 then last
    else if since == 0 then last + Rounds(steps, round)
    else Max(since + ThresholdMs(cfg), last) + gap + Rounds(steps - 1, round)
  }

  function Started(since: int, now: int): int {
    if since == 0 then now else since
  }

  /** A tick on the timer's side takes a step when the timer is due, and keeps the deadline. */
  lemma DeadlineStays(cfg: Config, steps: nat, since: int, last: int, now: int, gap: int)
    requires cfg.cpuThresholdSec >= 0 && 0 <= last < now <= last + gap && since <= last && steps > 0
    ensures var due := now - Started(since, now) >= ThresholdMs(cfg);
            var steps', since' := if due then steps - 1 else steps, if due then 0 else Started(since, now);
            steps' > 0 ==> Deadline(cfg, steps', since', now, gap) <= Deadline(cfg, steps, since, last, gap)
  {}

  lemma QuietTick(cfg: Config, s: State, x: Sample)
    requires Sound(s.q) && Quiet(cfg, x)
    ensures var q, since := Tick(cfg, s, x).q, Started(s.q.cpuLowSinceMs, x.nowMs);
            var due := Level(s.q) > 0 && x.nowMs - since >= ThresholdMs(cfg);
            && Level(q) == (if due then Level(s.q) - 1 else Level(s.q))
            && q.cpuLowSinceMs == (if due then 0 else since)
            && q.bitrateIdx == if s.q.bitrateIdx > 0 then s.q.bitrateIdx - 1 else 0
  {}

  /** A quiet tick never raises the level, and does not move the deadline of a level that is left. */
  lemma QuietTickKeepsDeadline(cfg: Config, s: State, last: int, x: Sample, gap: int)
    requires Sound(s.q) && Quiet(cfg, x) && cfg.cpuThresholdSec >= 0
    requires 0 <= last < x.nowMs <= last + gap
    requires s.q.cpuLowSinceMs <= last
    ensures var q := Tick(cfg, s, x).q;
            && Level(q) <= Level(s.q) && q.cpuLowSinceMs <= x.nowMs
            && (Level(q) > 0 ==>
                  Deadline(cfg, Level(q), q.cpuLowSinceMs, x.nowMs, gap)
                  <= Deadline(cfg, Level(s.q), s.q.cpuLowSinceMs, last, gap))
            && q.bitrateIdx == if s.q.bitrateIdx > 0 then s.q.bitrateIdx - 1 else 0
  {
    QuietTick(cfg, s, x);
    if Level(s.q) > 0 {
      DeadlineStays(cfg, Level(s.q), s.q.cpuLowSinceMs, last, x.nowMs, gap);
    }
  }

  lemma {:induction false} RoundsMonotone(l: nat, m: nat, round: int)
    requires l <= m && round >= 0
    ensures Rounds(l, round) <= Rounds(m, round)
    decreases m
  {
    if l < m { RoundsMonotone(l, m - 1, round); } else if l > 0 { RoundsMonotone(l - 1, m - 1, round); }
  }

  lemma RoundsBounds(level: nat, round: int)
    requires level <= 4 && round >= 0
    ensures 0 <= Rounds(level, round) <= 4 * round
    ensures level <= 3 ==> Rounds(level, round) <= 3 * round
    ensures level > 0 ==> Rounds(level, round) >= round
  {
    assert Rounds(1, round) == round;
    assert Rounds(2, round) == 2 * round;
    assert Rounds(3, round) == 3 * round;
    assert Rounds(4, round) == 4 * round;
  }

  lemma DeadlineBounds(cfg: Config, steps: nat, since: int, last: int, gap: int)
    requires steps <= 4 && cfg.cpuThresholdSec >= 0 && gap > 0 && since <= last
    ensures steps > 0 ==> last < Deadline(cfg, steps, since, last, gap)
    ensures Deadline(cfg, steps, since, last, gap) <= last + 4 * (ThresholdMs(cfg) + 2 * gap)
  {
    var round := ThresholdMs(cfg) + 2 * gap;
    RoundsBounds(steps, round);
    if steps > 0 {
      RoundsBounds(steps - 1, round);
    }
  }

  /** What a quiet run has reached after its ticks so far. */
  ghost predicate Recovering(cfg: Config, s: State, start: int, xs: seq<Sample>, gap: int) {
    var q := Ticks(cfg, s, xs).q;
    && Sound(q) && q.cpuLowSinceMs <= Last(start, xs)
    && start <= Last(start, xs) <= start + |xs| * gap
    && (Level(q) > 0 ==>
          && Level(s.q) > 0
          && Deadline(cfg, Level(q), q.cpuLowSinceMs, Last(start, xs), gap)
             <= Deadline(cfg, Level(s.q), s.q.cpuLowSinceMs, start, gap))
    && q.bitrateIdx == if s.q.bitrateIdx > |xs| then s.q.bitrateIdx - |xs| else 0
  }

  lemma QuietRunEnds(cfg: Config, start: int, xs: seq<Sample>, gap: int)
    requires QuietRun(cfg, start, xs, gap) && xs != []
    ensures var init, x := xs[..|xs| - 1], xs[|xs| - 1];
            QuietRun(cfg, start, init, gap) && Quiet(cfg, x) && Last(start, init) < x.nowMs <= Last(start, init) + gap
  {
    var n := |xs| - 1;
    forall i | 0 <= i < n ensures QuietAt(cfg, start, xs[..n], gap, i) {
      assert QuietAt(cfg, start, xs, gap, i);
    }
    assert QuietAt(cfg, start, xs, gap, n);
  }

  lemma GapsAdd(n: nat, gap: int)
    ensures (n + 1) * gap == n * gap + gap
  {}

  lemma {:induction false} QuietRunRecovers(cfg: Config, s: State, start: int, xs: seq<Sample>, gap: int)
    requires Sound(s.q) && cfg.cpuThresholdSec >= 0 && start >= 0 && s.q.cpuLowSinceMs <= start
    requires QuietRun(cfg, start, xs, gap)
    ensures Recovering(cfg, s, start, xs, gap)
    decreases |xs|
  {
    if xs != [] {
      var init, x := xs[..|xs| - 1], xs[|xs| - 1];
      QuietRunEnds(cfg, start, xs, gap);
      QuietRunRecovers(cfg, s, start, init, gap);
      QuietTickKeepsDeadline(cfg, Ticks(cfg, s, init), Last(start, init), x, gap);
      TickKeepsSound(cfg, Ticks(cfg, s, init), x);
      GapsAdd(|init|, gap);
    }
  }

  /**
   Once CPU and loss stay low and the round trip stays within its limit, every
   index is back at 0 at the latest 4 * (threshold + 2 * gap) after the last
   tick before the quiet run began.
   */
  lemma QualityRecovers(cfg: Config, s: State, start: int, xs: seq<Sample>, gap: int)
    requires Sound(s.q) && cfg.cpuThresholdSec >= 0 && start >= 0 && s.q.cpuLowSinceMs <= start
    requires QuietRun(cfg, start, xs, gap)
    requires xs != [] && Last(start, xs) >= start + 4 * (cfg.cpuThresholdSec * 1000 + 2 * gap)
    ensures var q := Ticks(cfg, s, xs).q;
            q.resolutionIdx == q.fpsIdx == q.bitrateIdx == 0
  {
    QuietRunRecovers(cfg, s, start, xs, gap);
    assert QuietAt(cfg, start, xs, gap, 0);
    var q := Ticks(cfg, s, xs).q;
    DeadlineBounds(cfg, Level(s.q), s.q.cpuLowSinceMs, start, gap);
    DeadlineBounds(cfg, Level(q), q.cpuLowSinceMs, Last(start, xs), gap);
    assert |xs| == 1 ==> |xs| * gap == gap;
  }

  /** At full quality a quiet tick changes no index. */
  lemma RecoveryIsStable(cfg: Config, s: State, x: Sample)
    requires Quiet(cfg, x) && Level(s.q) == s.q.bitrateIdx == 0
    ensures var q := Tick(cfg, s, x).q; Level(q) == q.bitrateIdx == 0
  {}

  /** The same from every state that some earlier run, quiet or not, has reached. */
  lemma QualityRecoversAfterAnyRun(cfg: Config, s: State, ys: seq<Sample>, xs: seq<Sample>, gap: int)
    requires s.q == Initial && Clock(ys) && cfg.cpuThresholdSec >= 0
    requires QuietRun(cfg, Last(0, ys), xs, gap) && xs != []
    requires Last(Last(0, ys), xs) >= Last(0, ys) + 4 * (cfg.cpuThresholdSec * 1000 + 2 * gap)
    ensures var q := Ticks(cfg, Ticks(cfg, s, ys), xs).q;
            q.resolutionIdx == q.fpsIdx == q.bitrateIdx == 0
  {
    TicksKeepSound(cfg, s, ys);
    TimersExplained(cfg, s, ys, |ys|);
    assert ys[..|ys|] == ys;
    QualityRecovers(cfg, Ticks(cfg, s, ys), Last(0, ys), xs, gap);
  }

  // ------------------------------------------------------------------
  // Reduction
  // ------------------------------------------------------------------

  ghost predicate LoadedAt(cfg: Config, start: int, xs: seq<Sample>, gap: int, i: nat)
    requires i < |xs|
  {
    var last := if i == 0 then start else xs[i - 1].nowMs;
    OnSide(cfg, xs[i], true) && last < xs[i].nowMs <= last + gap
  }

  /** Ticks under high load after time `start`, never more than `gap` apart. */
  ghost predicate LoadedRun(cfg: Config, start: int, xs: seq<Sample>, gap: int) {
    forall i :: 0 <= i < |xs| ==> LoadedAt(cfg, start, xs, gap, i)
  }

  /** The steps that are left to the lowest picture quality. */
  function Remaining(q: Quality): int {
    4 - Level(q)
  }

  lemma LoadedTick(cfg: Config, s: State, x: Sample)
    requires Sound(s.q) && OnSide(cfg, x, true)
    ensures var q, since := Tick(cfg, s, x).q, Started(s.q.cpuHighSinceMs, x.nowMs);
            var due := Remaining(s.q) > 0 && x.nowMs - since >= ThresholdMs(cfg);
            && 0 <= Remaining(q) <= (if due then Remaining(s.q) - 1 else Remaining(s.q))
            && q.cpuHighSinceMs == if due then 0 else since
  {}

  /** Fewer steps are done sooner. */
  lemma FewerSteps(cfg: Config, steps: nat, steps': nat, since: int, last: int, gap: int)
    requires cfg.cpuThresholdSec >= 0 && gap > 0 && 0 < steps <= steps'
    ensures Deadline(cfg, steps, since, last, gap) <= Deadline(cfg, steps', since, last, gap)
  {
    var round := ThresholdMs(cfg) + 2 * gap;
    RoundsMonotone(steps, steps', round);
    RoundsMonotone(steps - 1, steps' - 1, round);
  }

  /** A loaded tick never takes a step back, and does not move the deadline of the steps that are left. */
  lemma LoadedTickKeepsDeadline(cfg: Config, s: State, last: int, x: Sample, gap: int)
    requires Sound(s.q) && OnSide(cfg, x, true) && cfg.cpuThresholdSec >= 0
    requires 0 <= last < x.nowMs <= last + gap
    requires s.q.cpuHighSinceMs <= last
    ensures var q := Tick(cfg, s, x).q;
            && 0 <= Remaining(q) <= Remaining(s.q) && q.cpuHighSinceMs <= x.nowMs
            && (Remaining(q) > 0 ==>
                  Deadline(cfg, Remaining(q), q.cpuHighSinceMs, x.nowMs, gap)
                  <= Deadline(cfg, Remaining(s.q), s.q.cpuHighSinceMs, last, gap))
  {
    LoadedTick(cfg, s, x);
    var q, since := Tick(cfg, s, x).q, Started(s.q.cpuHighSinceMs, x.nowMs);
    if Remaining(q) > 0 {
      var steps := if x.nowMs - since >= ThresholdMs(cfg) then Remaining(s.q) - 1 else Remaining(s.q);
      DeadlineStays(cfg, Remaining(s.q), s.q.cpuHighSinceMs, last, x.nowMs, gap);
      FewerSteps(cfg, Remaining(q), steps, q.cpuHighSinceMs, x.nowMs, gap);
    }
  }

  lemma LoadedRunEnds(cfg: Config, start: int, xs: seq<Sample>, gap: int)
    requires LoadedRun(cfg, start, xs, gap) && xs != []
    ensures var init, x := xs[..|xs| - 1], xs[|xs| - 1];
            LoadedRun(cfg, start, init, gap) && OnSide(cfg, x, true) && Last(start, init) < x.nowMs <= Last(start, init) + gap
  {
    var n := |xs| - 1;
    forall i | 0 <= i < n ensures LoadedAt(cfg, start, xs[..n], gap, i) {
      assert LoadedAt(cfg, start, xs, gap, i);
    }
    assert LoadedAt(cfg, start, xs, gap, n);
  }

  /** What a loaded run has reached after its ticks so far. */
  ghost predicate Reducing(cfg: Config, s: State, start: int, xs: seq<Sample>, gap: int) {
    var q := Ticks(cfg, s, xs).q;
    && Sound(q) && Sound(s.q) && start <= Last(start, xs) && q.cpuHighSinceMs <= Last(start, xs)
    && (Remaining(q) > 0 ==>
          && Remaining(s.q) > 0
          && Deadline(cfg, Remaining(q), q.cpuHighSinceMs, Last(start, xs), gap)
             <= Deadline(cfg, Remaining(s.q), s.q.cpuHighSinceMs, start, gap))
  }

  lemma {:induction false} LoadedRunReduces(cfg: Config, s: State, start: int, xs: seq<Sample>, gap: int)
    requires Sound(s.q) && cfg.cpuThresholdSec >= 0 && start >= 0 && s.q.cpuHighSinceMs <= start
    requires LoadedRun(cfg, start, xs, gap)
    ensures Reducing(cfg, s, start, xs, gap)
    decreases |xs|
  {
    if xs != [] {
      var init, x := xs[..|xs| - 1], xs[|xs| - 1];
      LoadedRunEnds(cfg, start, xs, gap);
      LoadedRunReduces(cfg, s, start, init, gap);
      LoadedTickKeepsDeadline(cfg, Ticks(cfg, s, init), Last(start, init), x, gap);
      TickKeepsSound(cfg, Ticks(cfg, s, init), x);
    }
  }

  /**
   Under lasting high load, whatever loss and round trip do, frame rate and resolution are
   at their lowest at the latest 4 * (threshold + 2 * gap) after the load began.
   */
  lemma QualityIsReduced(cfg: Config, s: State, start: int, xs: seq<Sample>, gap: int)
    requires Sound(s.q) && cfg.cpuThresholdSec >= 0 && start >= 0 && s.q.cpuHighSinceMs <= start
    requires LoadedRun(cfg, start, xs, gap)
    requires xs != [] && Last(start, xs) >= start + 4 * (cfg.cpuThresholdSec * 1000 + 2 * gap)
    ensures var q := Ticks(cfg, s, xs).q;
            q.fpsIdx == q.resolutionIdx == 2
  {
    LoadedRunReduces(cfg, s, start, xs, gap);
    assert LoadedAt(cfg, start, xs, gap, 0);
    var q := Ticks(cfg, s, xs).q;
    DeadlineBounds(cfg, Remaining(s.q), s.q.cpuHighSinceMs, start, gap);
    DeadlineBounds(cfg, Remaining(q), q.cpuHighSinceMs, Last(start, xs), gap);
  }

  /** The same from every state that some earlier run has reached. */
  lemma QualityIsReducedAfterAnyRun(cfg: Config, s: State, ys: seq<Sample>, xs: seq<Sample>, gap: int)
    requires s.q == Initial && Clock(ys) && cfg.cpuThresholdSec >= 0
    requires LoadedRun(cfg, Last(0, ys), xs, gap) && xs != []
    requires Last(Last(0, ys), xs) >= Last(0, ys) + 4 * (cfg.cpuThresholdSec * 1000 + 2 * gap)
    ensures var q := Ticks(cfg, Ticks(cfg, s, ys), xs).q;
            q.fpsIdx == q.resolutionIdx == 2
  {
    TicksKeepSound(cfg, s, ys);
    TimersExplained(cfg, s, ys, |ys|);
    assert ys[..|ys|] == ys;
    QualityIsReduced(cfg, Ticks(cfg, s, ys), Last(0, ys), xs, gap);
  }
}
