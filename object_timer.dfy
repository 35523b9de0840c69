/**
 * The action timer that the object engine keeps for every object. Both the
 * clock hands and the puzzle pieces count frames with it, but the engine
 * itself is not part of this model; these are the rules the behaviours rely
 * on:
 *
 *  - after each call of the behaviour the timer counts up by one, stopping
 *    at 0x3FFFFFFF, and restarts at 0 on the frame the action has changed;
 *  - changing the action through the engine's change-action helper sets the
 *    action and the previous action and restarts the timer at once.
 */
module ObjectTimer {

  const TimerMax := 0x3FFF_FFFF

  /** oAction, oPrevAction and oTimer of one object. */
  datatype ActionClock = ActionClock(action: int, prevAction: int, timer: int)

  /** The engine's update after the behaviour has run. */
  function Tick(c: ActionClock): (t: ActionClock)
    ensures t.action == c.action && t.prevAction == c.action
    ensures c.action != c.prevAction ==> t.timer == 0
    ensures c.action == c.prevAction && 0 <= c.timer <= TimerMax ==>
      c.timer <= t.timer <= TimerMax && (t.timer == c.timer <==> c.timer == TimerMax)
  {
    var timer := if c.timer < TimerMax then c.timer + 1 else c.timer;
    if c.action != c.prevAction then ActionClock(c.action, c.action, 0) else c.(timer := timer)
  }

  /** cur_obj_change_action: a new action, with its timer restarted. */
  function ChangeAction(c: ActionClock, action: int): ActionClock
  {
    ActionClock(action, action, 0)
  }

  /** n engine updates with no change of action in between. */
  function Ticks(c: ActionClock, n: nat): ActionClock
  {
    if n == 0 then c else Tick(Ticks(c, n - 1))
  }

  /** While the action stays the same, the timer is the number of frames since it was set. */
  lemma {:induction false} TimerCountsFrames(action: int, n: nat)
    requires n <= TimerMax
    ensures Ticks(ChangeAction(ActionClock(0, 0, 0), action), n) == ActionClock(action, action, n)
  {
    if n > 0 {
      TimerCountsFrames(action, n - 1);
    }
  }
}
