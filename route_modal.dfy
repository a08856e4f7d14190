/** The route-entry modal: the cost it shows and which buttons it enables. */
module RouteModal {
  import opened GameTypes
  import opened GameReducer

  datatype View = View(routeId: string, cost: int, alreadyVisited: bool, canAfford: bool)

  /** What the modal shows, nothing for a tile without a route id. */
  function RouteView(tile: Tile, p: Player, costs: map<string, int>): (v: Option<View>)
    ensures v.None? <==> !HasRoute(tile)
    ensures v.Some? ==>
              && v.value.routeId == tile.r.value
              && (v.value.alreadyVisited <==> tile.r.value in p.visitedRoutes)
              && (v.value.alreadyVisited ==> v.value.cost == 0)
              && (!v.value.alreadyVisited ==> v.value.cost == RouteFee(costs, tile.r.value))
              && (v.value.canAfford <==> p.actual.money >= v.value.cost)
  {
    if !HasRoute(tile) then None
    else
      var id := tile.r.value;
      var visited := id in p.visitedRoutes;
      var cost := if visited then 0 else RouteFee(costs, id);
      Some(View(id, cost, visited, p.actual.money >= cost))
  }

  /** "Enter" is enabled when the player can pay and interact. */
  predicate EnterEnabled(v: View, canInteract: bool) {
    v.canAfford && canInteract
  }

  /** "Decline" is enabled whenever the player can interact. */
  predicate DeclineEnabled(canInteract: bool) {
    canInteract
  }

  /** The decision a click sends: nothing from a disabled button. */
  function Click(v: View, canInteract: bool, enter: bool): (d: Option<bool>)
    ensures d.Some? ==> d.value == enter && canInteract
    ensures enter ==> (d.Some? <==> EnterEnabled(v, canInteract))
    ensures !enter ==> (d.Some? <==> DeclineEnabled(canInteract))
  {
    if (if enter then EnterEnabled(v, canInteract) else DeclineEnabled(canInteract)) then Some(enter) else None
  }

  /** The modal and the reducer agree: on the tile of the route choice the
      modal enables "Enter" exactly when DECIDE_ROUTE lets the player in,
      and a decline never does. */
  lemma ModalAgreesWithReducer(s: GameState, c: Config, t: Tile)
    requires ValidCurrent(s) && s.activeModal == Some(RouteChoice(t)) && s.currentTile == Some(t)
    ensures Enters(s, c, true) <==>
              RouteView(t, CurrentPlayer(s), c.routeCosts).Some? && EnterEnabled(RouteView(t, CurrentPlayer(s), c.routeCosts).value, true)
    ensures !Enters(s, c, false)
  {
  }

  /** A click on an enabled "Enter" puts the player on the route's first
      step with the fee paid. */
  lemma EnterClickEnters(s: GameState, c: Config, t: Tile)
    requires ValidCurrent(s) && s.activeModal == Some(RouteChoice(t)) && s.currentTile == Some(t)
    requires RouteView(t, CurrentPlayer(s), c.routeCosts).Some?
    requires Click(RouteView(t, CurrentPlayer(s), c.routeCosts).value, true, true) == Some(true)
    ensures var r := DecideRouteStep(s, c, true); var v := RouteView(t, CurrentPlayer(s), c.routeCosts).value;
            && CurrentPlayer(r).inRoute && CurrentPlayer(r).rId == Some(t.r.value) && CurrentPlayer(r).rSteps == 1
            && CurrentPlayer(r).actual.money == CurrentPlayer(s).actual.money - v.cost
            && r.pozo == s.pozo + v.cost
  {
    assert Enters(s, c, true);
  }
}
