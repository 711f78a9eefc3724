/** The diving rules of Diver.cs stated over plain values: how the look direction is
    classified, how one frame of ascending or diving changes the swim depth, and how the
    swim-skill timer ticks. The Diver class in module Diving is proved against these
    functions; the lemmas at the end follow the rules over any number of frames. */
module DiveRules {
  import opened Unity

  /** Where the player is heading underwater (Diver.DiveDirection). */
  datatype DiveDirection = Neutral | Up | Down

  /** Swim depth the host uses at the surface; the floor of every depth update. */
  const DefaultSwimDepth: real := 1.5
  /** Depths strictly beyond this count as diving. */
  const DivingSwimDepth: real := 2.2
  const SprintSwimSpeed: real := 3.0
  /** Vertical speed in metres per second. */
  const SwimSpeedDelta: real := 1.0

  /** Looking further down than this dives. */
  const DownThreshold: real := -0.25
  /** Looking further up than this ascends. */
  const UpThreshold: real := 0.15

  /** Classifies the vertical component of the look direction. */
  function Classify(y: real): (d: DiveDirection)
    ensures d == Down <==> y < DownThreshold
    ensures d == Up <==> y > UpThreshold
    ensures d == Neutral <==> DownThreshold <= y <= UpThreshold
  {
    if y < DownThreshold then Down
    else if y > UpThreshold then Up
    else Neutral
  }

  predicate IsDivingDepth(depth: real)
  {
    depth > DivingSwimDepth
  }

  /** Depth after ascending at the fixed rate for `dt` seconds (Diver.Ascend). */
  function Ascended(depth: real, dt: real): (r: real)
    ensures r >= DefaultSwimDepth && r >= depth - dt
    ensures r == depth - dt || r == DefaultSwimDepth
    ensures dt >= 0.0 && depth >= DefaultSwimDepth ==> r <= depth
  {
    Max(depth - SwimSpeedDelta * dt, DefaultSwimDepth)
  }

  /** Depth after one frame of steering by the look direction's `y` (Diver.UpdateDivingDepth):
      unchanged when neutral, deeper by y*y*dt when looking down, shallower by y*y*dt but
      never shallower than DefaultSwimDepth when looking up. */
  function LookDepth(depth: real, y: real, dt: real): (r: real)
    ensures Classify(y) == Neutral ==> r == depth
    ensures Classify(y) == Down ==> r == depth + y * y * dt
    ensures Classify(y) == Down && dt >= 0.0 ==> r >= depth
    ensures Classify(y) == Down && dt > 0.0 ==> r > depth
    ensures Classify(y) == Up ==> r >= DefaultSwimDepth && r >= depth - y * y * dt
    ensures Classify(y) == Up ==> r == depth - y * y * dt || r == DefaultSwimDepth
    ensures Classify(y) == Up && dt >= 0.0 ==> r <= Max(depth, DefaultSwimDepth)
  {
    var dir := Classify(y);
    if dir == Neutral then depth
    else
      var multiplier := y * y * SwimSpeedDelta * dt;
      assert Classify(y) == Down ==> y * y > 0.0;
      assert dt >= 0.0 ==> multiplier >= 0.0;
      if dir == Down then depth + multiplier
      else Max(depth - multiplier, DefaultSwimDepth)
  }

  /** One frame of the swim-skill timer: the new timer and whether the skill was raised. */
  datatype SkillTick = SkillTick(timer: real, raised: bool)

  /** Diver.UpdateSwimSkill on values: accumulate `dt`; once past one second, raise the
      skill and restart the timer at zero (the excess is discarded). */
  function SkillStep(timer: real, dt: real): (t: SkillTick)
    ensures t.raised <==> timer + dt > 1.0
    ensures t.raised ==> t.timer == 0.0
    ensures !t.raised ==> t.timer == timer + dt
    ensures t.timer <= 1.0
    ensures timer >= 0.0 && dt >= 0.0 ==> t.timer >= 0.0
  {
    var accumulated := timer + dt;
    if accumulated > 1.0 then SkillTick(0.0, true) else SkillTick(accumulated, false)
  }

  // ----- The rules over a sequence of frames -----

  /** What the per-frame hooks can do to the swim depth. */
  datatype DepthEvent =
    | Look(y: real, dt: real)   // UpdateDivingDepth with the look direction's y
    | Rise(dt: real)            // Ascend
    | Reset                     // ResetSwimDepthToDefault

  function DepthStep(depth: real, e: DepthEvent): real
  {
    match e
    case Look(y, dt) => LookDepth(depth, y, dt)
    case Rise(dt) => Ascended(depth, dt)
    case Reset => DefaultSwimDepth
  }

  function DepthAfter(depth: real, events: seq<DepthEvent>): real
    decreases events
  {
    if events == [] then depth else DepthAfter(DepthStep(depth, events[0]), events[1..])
  }

  /** Frame times are never negative. */
  predicate ForwardInTime(e: DepthEvent)
  {
    match e
    case Look(_, dt) => dt >= 0.0
    case Rise(dt) => dt >= 0.0
    case Reset => true
  }

  predicate LooksDown(e: DepthEvent)
  {
    e.Look? && Classify(e.y) == Down
  }

  /** Starting no shallower than the surface depth, no sequence of forward frames makes
      the swim depth shallower than it: DefaultSwimDepth is a floor of the whole state machine. */
  lemma {:induction false} DepthNeverBelowDefault(depth: real, events: seq<DepthEvent>)
    requires depth >= DefaultSwimDepth
    requires forall i :: 0 <= i < |events| ==> ForwardInTime(events[i])
    ensures DepthAfter(depth, events) >= DefaultSwimDepth
    decreases events
  {
    if events != [] {
      assert ForwardInTime(events[0]);
      DepthNeverBelowDefault(DepthStep(depth, events[0]), events[1..]);
    }
  }

  /** The only way into the diving range is looking down: a player who is not diving
      stays out of it through any frames that do not look down. */
  lemma {:induction false} NoDivingWithoutLookingDown(depth: real, events: seq<DepthEvent>)
    requires !IsDivingDepth(depth)
    requires forall i :: 0 <= i < |events| ==> ForwardInTime(events[i]) && !LooksDown(events[i])
    ensures !IsDivingDepth(DepthAfter(depth, events))
    decreases events
  {
    if events != [] {
      assert ForwardInTime(events[0]) && !LooksDown(events[0]);
      NoDivingWithoutLookingDown(DepthStep(depth, events[0]), events[1..]);
    }
  }

  /** After a reset the player is not diving, whatever came before. */
  lemma ResetEndsDive(depth: real, events: seq<DepthEvent>)
    ensures !IsDivingDepth(DepthAfter(depth, events + [Reset]))
  {
    DepthAfterAppend(depth, events, Reset);
  }

  lemma {:induction false} DepthAfterAppend(depth: real, events: seq<DepthEvent>, e: DepthEvent)
    ensures DepthAfter(depth, events + [e]) == DepthStep(DepthAfter(depth, events), e)
    decreases events
  {
    if events == [] {
      assert events + [e] == [e];
    } else {
      assert (events + [e])[1..] == events[1..] + [e];
      DepthAfterAppend(DepthStep(depth, events[0]), events[1..], e);
    }
  }

  /** Timer and number of skill raises after a sequence of frame times. */
  datatype SkillProgress = SkillProgress(timer: real, raises: nat)

  function SkillAfter(timer: real, dts: seq<real>): SkillProgress
    decreases dts
  {
    if dts == [] then SkillProgress(timer, 0)
    else
      var tick := SkillStep(timer, dts[0]);
      var rest := SkillAfter(tick.timer, dts[1..]);
      SkillProgress(rest.timer, rest.raises + if tick.raised then 1 else 0)
  }

  function Sum(dts: seq<real>): real
  {
    if dts == [] then 0.0 else dts[0] + Sum(dts[1..])
  }

  /** The swim skill is raised at most once per second of diving time: every raise
      consumes more than one second of accumulated time, and the timer never holds more
      than one second. */
  lemma {:induction false} RaisesBoundedByDivingTime(timer: real, dts: seq<real>)
    requires timer >= 0.0
    requires forall i :: 0 <= i < |dts| ==> dts[i] >= 0.0
    ensures SkillAfter(timer, dts).raises as real + SkillAfter(timer, dts).timer <= timer + Sum(dts)
    ensures SkillAfter(timer, dts).timer >= 0.0
    ensures dts != [] ==> SkillAfter(timer, dts).timer <= 1.0
    decreases dts
  {
    if dts != [] {
      var tick := SkillStep(timer, dts[0]);
      assert dts[0] >= 0.0;
      RaisesBoundedByDivingTime(tick.timer, dts[1..]);
      if dts[1..] == [] {
        assert SkillAfter(tick.timer, dts[1..]).timer == tick.timer;
      }
    }
  }
}
