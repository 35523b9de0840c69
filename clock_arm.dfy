/**
 * The hour and minute hands of the Tick Tock Clock painting
 * (src/game/behaviors/clock_arm.inc.c).
 *
 * A hand waits a few frames, then turns until Mario enters a painting. When
 * the painting is the Tick Tock Clock one, the minute hand's roll angle at
 * that moment chooses the level's speed setting.
 *
 * The object engine that calls the behaviour once per frame is outside the
 * shown files; `EngineTick` applies its action timer (ObjectTimer.Tick): the
 * timer counts frames and restarts at 0 on the frame the action changes.
 */
module ClockArm {

  import ObjectTimer

  const ActWait := 0
  const ActMoving := 1
  const ActStopped := 2

  /** TTC_SPEED_*: the speed settings of the Tick Tock Clock level. */
  datatype TtcSpeed = Slow | Fast | Random | Stopped

  /** gEnteredPainting: no painting, or the id of the painting Mario is entering. */
  datatype EnteredPainting = NoPainting | Entered(paintingId: int)

  /** `(u16) o->oFaceAngleRoll`: the low 16 bits of the roll angle. */
  function RollAngle(faceAngleRoll: int): (a: int)
    ensures 0 <= a < 0x1_0000
    ensures (faceAngleRoll - a) % 0x1_0000 == 0
  {
    faceAngleRoll % 0x1_0000
  }

  /**
   * The speed chosen by the minute hand's angle. The angle counts down from
   * 0xFFFF, so the thresholds split the dial into five arcs.
   */
  function SpeedForAngle(rollAngle: int): (s: TtcSpeed)
    requires 0 <= rollAngle < 0x1_0000
    ensures s == Stopped <==> rollAngle < 0x0AAA || 0xF546 <= rollAngle
    ensures s == Fast <==> 0x0AAA <= rollAngle < 0x6AA4
    ensures s == Random <==> 0x6AA4 <= rollAngle < 0x954C
    ensures s == Slow <==> 0x954C <= rollAngle < 0xF546
  {
    if rollAngle < 0x0AAA then Stopped
    else if rollAngle < 0x6AA4 then Fast
    else if rollAngle < 0x954C then Random
    else if rollAngle < 0xF546 then Slow
    else Stopped
  }

  /** Mario is entering the Tick Tock Clock painting. */
  predicate EntersTtc(entered: EnteredPainting, ttcPaintingId: int)
  {
    entered.Entered? && entered.paintingId == ttcPaintingId
  }

  /** The action after one call of the behaviour. */
  function NextAction(action: int, timer: int, entered: EnteredPainting, ttcPaintingId: int): (next: int)
    ensures action == ActWait ==> (next == ActMoving <==> timer >= 4) && (next == ActWait <==> timer < 4)
    ensures action == ActMoving ==>
      (next == ActStopped <==> EntersTtc(entered, ttcPaintingId)) && (next == ActMoving <==> !EntersTtc(entered, ttcPaintingId))
    ensures action == ActStopped ==>
      (next == ActMoving <==> entered == NoPainting) && (next == ActStopped <==> entered != NoPainting)
    ensures action !in {ActWait, ActMoving, ActStopped} ==> next == action
  {
    if action == ActWait then
      if timer >= 4 then action + 1 else action
    else if action == ActMoving then
      if EntersTtc(entered, ttcPaintingId) then action + 1 else action
    else if action == ActStopped then
      if entered == NoPainting then ActMoving else action
    else action
  }

  /** The speed setting after one call: only the minute hand leaving MOVING for the TTC painting writes it. */
  function NextSpeed(speed: TtcSpeed, isMinuteHand: bool, action: int, faceAngleRoll: int,
                     entered: EnteredPainting, ttcPaintingId: int): (s: TtcSpeed)
    ensures s != speed ==> isMinuteHand && action == ActMoving && EntersTtc(entered, ttcPaintingId)
    ensures isMinuteHand && action == ActMoving && EntersTtc(entered, ttcPaintingId) ==>
      s == SpeedForAngle(RollAngle(faceAngleRoll))
  {
    if action == ActMoving && EntersTtc(entered, ttcPaintingId) && isMinuteHand then
      SpeedForAngle(RollAngle(faceAngleRoll))
    else speed
  }

  /** The three face angles, or the three angular velocities, of an object. */
  datatype Angles = Angles(pitch: int, yaw: int, roll: int)

  function AddAngles(a: Angles, v: Angles): Angles
  {
    Angles(a.pitch + v.pitch, a.yaw + v.yaw, a.roll + v.roll)
  }

  /** The fields of a hand that the behaviour and the engine's timer read or write. */
  datatype ArmState = ArmState(action: int, prevAction: int, timer: int, faceAngle: Angles, angleVel: Angles)

  /** The object's state after one call of the behaviour. */
  function LoopSpec(s: ArmState, entered: EnteredPainting, ttcPaintingId: int): (t: ArmState)
    ensures t.action == NextAction(s.action, s.timer, entered, ttcPaintingId)
    ensures t.timer == s.timer && t.prevAction == s.prevAction && t.angleVel == s.angleVel
    ensures t.action < 2 ==> t.faceAngle == AddAngles(s.faceAngle, s.angleVel)
    ensures t.action >= 2 ==> t.faceAngle == s.faceAngle
  {
    var action := NextAction(s.action, s.timer, entered, ttcPaintingId);
    s.(action := action, faceAngle := if action < 2 then AddAngles(s.faceAngle, s.angleVel) else s.faceAngle)
  }

  /**
   * The object engine after the behaviour: the action timer counts up (it
   * saturates at 0x3FFFFFFF) and restarts at 0 when the action has changed.
   */
  function EngineTick(s: ArmState): (t: ArmState)
    ensures t.action == s.action && t.prevAction == s.action
    ensures t.timer == if s.action != s.prevAction then 0 else if s.timer < ObjectTimer.TimerMax then s.timer + 1 else s.timer
  {
    var c := ObjectTimer.Tick(ObjectTimer.ActionClock(s.action, s.prevAction, s.timer));
    s.(action := c.action, prevAction := c.prevAction, timer := c.timer)
  }

  /** One frame: the behaviour, then the engine's timer update. */
  function Frame(s: ArmState, entered: EnteredPainting, ttcPaintingId: int): ArmState
  {
    EngineTick(LoopSpec(s, entered, ttcPaintingId))
  }

  /** A run of frames, one entered-painting reading per frame. */
  function Run(s: ArmState, inputs: seq<EnteredPainting>, ttcPaintingId: int): ArmState
    decreases |inputs|
  {
    if |inputs| == 0 then s else Run(Frame(s, inputs[0], ttcPaintingId), inputs[1..], ttcPaintingId)
  }

  predicate ValidAction(action: int)
  {
    action == ActWait || action == ActMoving || action == ActStopped
  }

  /** The action never leaves {WAIT, MOVING, STOPPED}, over any run of frames. */
  lemma {:induction false} RunKeepsActionValid(s: ArmState, inputs: seq<EnteredPainting>, ttcPaintingId: int)
    requires ValidAction(s.action)
    ensures ValidAction(Run(s, inputs, ttcPaintingId).action)
    decreases |inputs|
  {
    if |inputs| > 0 {
      RunKeepsActionValid(Frame(s, inputs[0], ttcPaintingId), inputs[1..], ttcPaintingId);
    }
  }

  /** A freshly spawned hand: WAIT, timer 0. */
  predicate Spawned(s: ArmState)
  {
    s.action == ActWait && s.prevAction == ActWait && s.timer == 0
  }

  /** While the timer has not reached 4, a waiting hand keeps waiting and its timer counts the frames. */
  lemma {:induction false} WaitsWhileTimerBelowFour(s: ArmState, inputs: seq<EnteredPainting>, ttcPaintingId: int)
    requires s.action == ActWait && s.prevAction == ActWait && s.timer + |inputs| <= 4
    ensures Run(s, inputs, ttcPaintingId).action == ActWait
    ensures Run(s, inputs, ttcPaintingId).timer == s.timer + |inputs|
    ensures Run(s, inputs, ttcPaintingId).prevAction == ActWait
    decreases |inputs|
  {
    if |inputs| > 0 {
      WaitsWhileTimerBelowFour(Frame(s, inputs[0], ttcPaintingId), inputs[1..], ttcPaintingId);
    }
  }

  /** The fifth frame after spawning moves the hand on to MOVING, with its timer restarted. */
  lemma WaitEndsOnFifthFrame(s: ArmState, inputs: seq<EnteredPainting>, ttcPaintingId: int)
    requires Spawned(s) && |inputs| == 5
    ensures Run(s, inputs, ttcPaintingId).action == ActMoving
    ensures Run(s, inputs, ttcPaintingId).timer == 0
  {
    WaitsWhileTimerBelowFour(s, inputs[..4], ttcPaintingId);
    RunSplit(s, inputs[..4], inputs[4..], ttcPaintingId);
    assert inputs[..4] + inputs[4..] == inputs;
  }

  lemma {:induction false} RunSplit(s: ArmState, a: seq<EnteredPainting>, b: seq<EnteredPainting>, ttcPaintingId: int)
    ensures Run(s, a + b, ttcPaintingId) == Run(Run(s, a, ttcPaintingId), b, ttcPaintingId)
    decreases |a|
  {
    if |a| == 0 {
      assert a + b == b;
    } else {
      assert (a + b)[1..] == a[1..] + b;
      RunSplit(Frame(s, a[0], ttcPaintingId), a[1..], b, ttcPaintingId);
    }
  }

  /** The u16 angle seen by the behaviour does not depend on whole turns added to the roll. */
  lemma RollAngleIgnoresWholeTurns(faceAngleRoll: int, turns: int)
    ensures RollAngle(faceAngleRoll + turns * 0x1_0000) == RollAngle(faceAngleRoll)
  {
  }

  /** gTTCSpeedSetting: the global that the minute hand writes. */
  class TtcSettings {
    var speedSetting: TtcSpeed

    constructor(speed: TtcSpeed)
      ensures speedSetting == speed
    {
      speedSetting := speed;
    }
  }

  /** One clock hand object. */
  class ClockHand {
    var action: int
    var prevAction: int
    var timer: int
    var faceAngle: Angles
    var angleVel: Angles
    /** cur_obj_has_behavior(bhvClockMinuteHand). */
    const isMinuteHand: bool

    function State(): ArmState
      reads this
    {
      ArmState(action, prevAction, timer, faceAngle, angleVel)
    }

    constructor(isMinuteHand: bool, faceAngle: Angles, angleVel: Angles)
      ensures Spawned(State()) && this.isMinuteHand == isMinuteHand
      ensures this.faceAngle == faceAngle && this.angleVel == angleVel
    {
      this.isMinuteHand := isMinuteHand;
      action := ActWait;
      prevAction := ActWait;
      timer := 0;
      this.faceAngle := faceAngle;
      this.angleVel := angleVel;
    }

    /** bhv_rotating_clock_arm_loop. */
    method Loop(entered: EnteredPainting, ttcPaintingId: int, settings: TtcSettings)
      modifies this, settings
      ensures State() == LoopSpec(old(State()), entered, ttcPaintingId)
      ensures settings.speedSetting ==
        NextSpeed(old(settings.speedSetting), isMinuteHand, old(action), old(faceAngle.roll), entered, ttcPaintingId)
    {
      var rollAngle := RollAngle(faceAngle.roll);
      if action == ActWait {
        if timer >= 4 {
          action := action + 1;
        }
      } else if action == ActMoving {
        if entered.Entered? && entered.paintingId == ttcPaintingId {
          if isMinuteHand {
            if rollAngle < 0x0AAA {
              settings.speedSetting := Stopped;
            } else if rollAngle < 0x6AA4 {
              settings.speedSetting := Fast;
            } else if rollAngle < 0x954C {
              settings.speedSetting := Random;
            } else if rollAngle < 0xF546 {
              settings.speedSetting := Slow;
            } else {
              settings.speedSetting := Stopped;
            }
          }
          action := action + 1;
        }
      } else if action == ActStopped {
        if entered == NoPainting {
          action := ActMoving;
        }
      }
      if action < 2 {
        faceAngle := AddAngles(faceAngle, angleVel);
      }
    }

    /** The engine's per-frame timer update after the behaviour. */
    method Tick()
      modifies this
      ensures State() == EngineTick(old(State()))
    {
      if timer < ObjectTimer.TimerMax {
        timer := timer + 1;
      }
      if action != prevAction {
        timer := 0;
        prevAction := action;
      }
    }
  }
}
