/** The game screen's drivers: the dice thrown for FINISH_ROLL, and the
    step-by-step animations that turn one move into a sequence of
    position updates closed by a single finishing action. */
module Movement {
  import opened GameTypes
  import opened GameReducer

  /** The dice of one roll from the random draws `draw1` and `draw2`: the
      second die is 0 for a player inside a route. */
  function RolledDice(draw1: nat, draw2: nat, inRoute: bool): (d: (int, int))
    ensures 1 <= d.0 <= 6
    ensures inRoute ==> d.1 == 0
    ensures !inRoute ==> 1 <= d.1 <= 6
  {
    (RollDie(draw1), if inRoute then 0 else RollDie(draw2))
  }

  /** A thrown roll always starts a move: main-board moves of 2..12 tiles,
      route moves of 1..6 steps; the zero-move turn end is never taken. */
  lemma RolledMoveAlwaysMoves(s: GameState, draw1: nat, draw2: nat)
    requires ValidCurrent(s)
    ensures var d := RolledDice(draw1, draw2, CurrentPlayer(s).inRoute);
            var r := FinishRollStep(s, d.0, d.1);
            && r.turnPhase == Moving
            && (CurrentPlayer(s).inRoute ==> 1 <= r.routeMoveDetails.value.steps <= 6)
            && (!CurrentPlayer(s).inRoute ==> r.isMoving && 2 <= r.moveDetails.value.steps <= 12)
  {
  }

  /** The remainder of JavaScript's `%`, which truncates toward zero. */
  function JsRem(a: int, b: int): (r: int)
    requires b > 0
    ensures a >= 0 ==> r == a % b
    ensures -b < r < b
  {
    if a >= 0 then a % b else -((-a) % b)
  }

  // ---------------------------------------------------------------------
  // Main-board moves

  /** The actions `animateMove` dispatches for a move of `steps` tiles
      from `startPos` on a board of `len` tiles. */
  function MoveActions(startPos: int, steps: int, len: int): (acts: seq<Action>)
    requires len > 0
    ensures |acts| == Max(steps, 0) + 1 && acts[|acts| - 1] == FinishMoveAction
    ensures forall i :: 0 <= i < |acts| - 1 ==> acts[i] == UpdatePlayerPosition(JsRem(startPos + i + 1, len))
  {
    seq(Max(steps, 0), i requires 0 <= i => UpdatePlayerPosition(JsRem(startPos + i + 1, len))) + [FinishMoveAction]
  }

  /** `animateMove`: one position update per step, then FINISH_MOVE. */
  method AnimateMove(startPos: int, steps: int, len: int) returns (acts: seq<Action>)
    requires len > 0
    ensures acts == MoveActions(startPos, steps, len)
  {
    acts := [];
    var i := 1;
    while i <= steps
      invariant 1 <= i <= Max(steps, 0) + 1
      invariant |acts| == i - 1
      invariant forall k :: 0 <= k < |acts| ==> acts[k] == UpdatePlayerPosition(JsRem(startPos + k + 1, len))
    {
      var nextPos := JsRem(startPos + i, len);
      acts := acts + [UpdatePlayerPosition(nextPos)];
      i := i + 1;
    }
    acts := acts + [FinishMoveAction];
  }

  /** On a move shorter than the board, the end lies below the start
      exactly when the move passes the start tile: the lap FINISH_MOVE
      detects. */
  lemma WrapIsLap(startPos: int, steps: int, len: int)
    requires 0 <= startPos < len && 0 < steps < len
    ensures (startPos + steps) % len < startPos <==> startPos + steps >= len
  {
    if startPos + steps >= len {
      assert (startPos + steps) % len == startPos + steps - len;
    } else {
      assert (startPos + steps) % len == startPos + steps;
    }
  }

  /** The state after dispatching position updates one after the other,
      each applied by the reducer's UPDATE_PLAYER_POSITION step. */
  function RunUpdates(s: GameState, acts: seq<Action>): (r: GameState)
    requires ValidCurrent(s)
    requires forall k :: 0 <= k < |acts| ==> acts[k].UpdatePlayerPosition?
    decreases |acts|
    ensures ValidCurrent(r) && |r.players| == |s.players| && r.currentPlayerIndex == s.currentPlayerIndex
    ensures r.moveDetails == s.moveDetails
    ensures acts == [] ==> r == s
    ensures acts != [] ==> CurrentPlayer(r).actual.pos == acts[|acts| - 1].pos
  {
    if acts == [] then s
    else RunUpdates(UpdatePositionStep(s, acts[0].pos), acts[1..])
  }

  /** The position updates of a move, without its FINISH_MOVE, end on
      `(startPos + steps) % len`. */
  lemma MovePrefix(startPos: int, steps: int, len: int)
    requires 0 <= startPos < len && 0 < steps < len
    ensures var prefix := MoveActions(startPos, steps, len)[..steps];
            && |prefix| == steps
            && (forall k :: 0 <= k < |prefix| ==> prefix[k].UpdatePlayerPosition?)
            && prefix[steps - 1].pos == (startPos + steps) % len
  {
  }

  /** A roll of `steps` from the current position, animated and applied,
      leaves the player on `(startPos + steps) % len`, ready for FINISH_MOVE,
      and FINISH_MOVE pays the lap bonus exactly when the move wrapped. */
  lemma {:induction false} MoveLandsOnTarget(s: GameState, c: Config, steps: int)
    requires ValidCurrent(s)
    requires s.moveDetails == Some(MoveDetails(CurrentPlayer(s).actual.pos, steps))
    requires 0 <= CurrentPlayer(s).actual.pos < |c.mainBoard| && 0 < steps < |c.mainBoard|
    ensures var pos := CurrentPlayer(s).actual.pos; var len := |c.mainBoard|;
            var acts := MoveActions(pos, steps, len);
            var t := RunUpdates(s, acts[..steps]);
            && CurrentPlayer(t).actual.pos == (pos + steps) % len
            && FinishMovePre(t, c)
            && (CurrentPlayer(t).actual.pos < t.moveDetails.value.startPos <==> pos + steps >= len)
  {
    var pos := CurrentPlayer(s).actual.pos;
    var len := |c.mainBoard|;
    MovePrefix(pos, steps, len);
    WrapIsLap(pos, steps, len);
  }

  // ---------------------------------------------------------------------
  // Route moves

  datatype Split = Split(moving: int, overflow: int)

  /** The route split: a move stops at the route's last step and the rest
      of the roll is carried over as overflow. */
  function RouteSplit(startStep: int, steps: int, routeLength: int): (sp: Split)
    ensures sp.moving == Min(steps, routeLength - startStep)
    ensures sp.moving + sp.overflow == steps && sp.overflow >= 0
    ensures startStep + sp.moving <= routeLength
    ensures sp.overflow > 0 ==> startStep + sp.moving == routeLength
  {
    var moving := Min(steps, routeLength - startStep);
    Split(moving, steps - moving)
  }

  /** The actions `animateRouteMove` dispatches. */
  function RouteMoveActions(startStep: int, steps: int, routeLength: int): (acts: seq<Action>)
    ensures var sp := RouteSplit(startStep, steps, routeLength);
            && |acts| == Max(sp.moving, 0) + 1
            && acts[|acts| - 1] == FinishRouteMove(sp.overflow)
            && forall i :: 0 <= i < |acts| - 1 ==> acts[i] == UpdatePlayerRouteStep(startStep + i + 1)
  {
    var sp := RouteSplit(startStep, steps, routeLength);
    seq(Max(sp.moving, 0), i requires 0 <= i => UpdatePlayerRouteStep(startStep + i + 1)) + [FinishRouteMove(sp.overflow)]
  }

  /** `animateRouteMove`: one route step per moving step, then
      FINISH_ROUTE_MOVE with the overflow; no step passes the route's end. */
  method AnimateRouteMove(startStep: int, steps: int, routeLength: int) returns (acts: seq<Action>)
    ensures acts == RouteMoveActions(startStep, steps, routeLength)
    ensures forall k :: 0 <= k < |acts| - 1 ==> acts[k].step <= routeLength
  {
    var movingSteps := Min(steps, routeLength - startStep);
    var overflow := steps - movingSteps;
    acts := [];
    var i := 1;
    while i <= movingSteps
      invariant 1 <= i <= Max(movingSteps, 0) + 1
      invariant |acts| == i - 1
      invariant forall k :: 0 <= k < |acts| ==> acts[k] == UpdatePlayerRouteStep(startStep + k + 1)
    {
      acts := acts + [UpdatePlayerRouteStep(startStep + i)];
      i := i + 1;
    }
    acts := acts + [FinishRouteMove(overflow)];
  }

  /** The state after dispatching route-step updates one after the other,
      each applied by the reducer's UPDATE_PLAYER_ROUTE_STEP step. */
  function RunRouteSteps(s: GameState, acts: seq<Action>): (r: GameState)
    requires ValidCurrent(s)
    requires forall k :: 0 <= k < |acts| ==> acts[k].UpdatePlayerRouteStep?
    decreases |acts|
    ensures ValidCurrent(r) && |r.players| == |s.players| && r.currentPlayerIndex == s.currentPlayerIndex
    ensures CurrentPlayer(r).rId == CurrentPlayer(s).rId
    ensures acts == [] ==> r == s
    ensures acts != [] ==> CurrentPlayer(r).rSteps == acts[|acts| - 1].step
  {
    if acts == [] then s
    else RunRouteSteps(UpdateRouteStepStep(s, acts[0].step), acts[1..])
  }

  /** A route roll that overflows has brought the player to the route's
      end, so FINISH_ROUTE_MOVE graduates the player and hands on the
      overflow. */
  lemma {:induction false} OverflowGraduates(s: GameState, c: Config, steps: int, draw: nat)
    requires ValidConfig(c) && ValidCurrent(s) && CurrentPlayer(s).rId.Some?
    requires CurrentPlayer(s).rSteps <= c.routeLength
    requires RouteSplit(CurrentPlayer(s).rSteps, steps, c.routeLength).overflow > 0
    ensures var sp := RouteSplit(CurrentPlayer(s).rSteps, steps, c.routeLength);
            var acts := RouteMoveActions(CurrentPlayer(s).rSteps, steps, c.routeLength);
            var t := RunRouteSteps(s, acts[..|acts| - 1]);
            && CurrentPlayer(t).rSteps == c.routeLength
            && FinishRouteMovePre(t, c)
            && var u := FinishRouteMoveStep(t, c, sp.overflow, draw);
               u.animationType == Some(Graduation) && u.overflowSteps == sp.overflow
  {
    var start := CurrentPlayer(s).rSteps;
    var sp := RouteSplit(start, steps, c.routeLength);
    var acts := RouteMoveActions(start, steps, c.routeLength);
    if sp.moving > 0 {
      assert acts[..|acts| - 1][|acts| - 2] == UpdatePlayerRouteStep(start + sp.moving);
    } else {
      assert acts[..|acts| - 1] == [];
    }
  }

  // ---------------------------------------------------------------------
  // The animation guard

  /** The game screen's animation flag: a move animation starts only when
      the state asks for one and no animation is running.  Here an
      animation runs to its end within one call, with the waits between
      steps left out, so the flag is raised and lowered inside that call:
      from the constructor on it is false between calls, and the branch
      that refuses a second animation is reached only by a caller that
      sets the flag itself.  The overlap it guards against in the game,
      an effect firing again while an earlier animation awaits its next
      step, is not modelled. */
  class MoveDriver {
    var isAnimating: bool

    constructor()
      ensures !isAnimating
    {
      isAnimating := false;
    }

    /** The main-board move effect: nothing unless a move is pending and
        no animation runs; otherwise the whole animation. */
    method OnMove(s: GameState, len: int) returns (acts: seq<Action>)
      requires len > 0
      modifies this
      ensures isAnimating == old(isAnimating)
      ensures !s.isMoving || s.moveDetails.None? || old(isAnimating) ==> acts == []
      ensures s.isMoving && s.moveDetails.Some? && !old(isAnimating) ==>
                acts == MoveActions(s.moveDetails.value.startPos, s.moveDetails.value.steps, len)
    {
      if !s.isMoving || s.moveDetails.None? || isAnimating {
        return [];
      }
      isAnimating := true;
      acts := AnimateMove(s.moveDetails.value.startPos, s.moveDetails.value.steps, len);
      isAnimating := false;
    }

    /** The route move effect, guarded the same way. */
    method OnRouteMove(s: GameState, routeLength: int) returns (acts: seq<Action>)
      modifies this
      ensures isAnimating == old(isAnimating)
      ensures !s.isMovingInRoute || s.routeMoveDetails.None? || old(isAnimating) ==> acts == []
      ensures s.isMovingInRoute && s.routeMoveDetails.Some? && !old(isAnimating) ==>
                acts == RouteMoveActions(s.routeMoveDetails.value.startStep, s.routeMoveDetails.value.steps, routeLength)
    {
      if !s.isMovingInRoute || s.routeMoveDetails.None? || isAnimating {
        return [];
      }
      isAnimating := true;
      acts := AnimateRouteMove(s.routeMoveDetails.value.startStep, s.routeMoveDetails.value.steps, routeLength);
      isAnimating := false;
    }
  }

  /** The roll effect: while the dice roll, FINISH_ROLL is dispatched with
      the thrown dice. */
  function RollEffect(s: GameState, draw1: nat, draw2: nat): (a: Option<Action>)
    requires ValidCurrent(s)
    ensures !s.isRolling <==> a.None?
    ensures a.Some? ==> a.value.FinishRoll? && 1 <= a.value.d1 <= 6
                        && (CurrentPlayer(s).inRoute <==> a.value.d2 == 0)
  {
    if s.isRolling then
      var d := RolledDice(draw1, draw2, CurrentPlayer(s).inRoute);
      Some(FinishRoll(d.0, d.1))
    else None
  }
}
