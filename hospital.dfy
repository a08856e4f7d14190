/** The hospital and vacation modal: one die sets the cost and the gain. */
module HospitalModal {
  import opened GameTypes
  import opened GameReducer

  datatype Outcome = Outcome(cost: int, health: int, happy: int)

  /** The result of die `d`: `1000 * d` is paid; the vacation tile turns
      each point into happiness, the hospital into health. */
  function HospitalOutcome(name: string, d: int): (o: Outcome)
    ensures o.cost == 1000 * d
    ensures name == "VACACIONES" ==> o.health == 0 && o.happy == d
    ensures name != "VACACIONES" ==> o.health == d && o.happy == 0
  {
    var vacation := name == "VACACIONES";
    Outcome(d * 1000, if vacation then 0 else d, if vacation then d else 0)
  }

  /** Resolving a stay: the pot gains the whole cost, the player pays it
      (floored at zero) and gains `d` health or happiness. */
  lemma StayOutcome(s: GameState, name: string, d: int)
    requires ValidCurrent(s) && 1 <= d <= 6
    ensures var o := HospitalOutcome(name, d);
            var r := ResolveHospitalStep(s, o.cost, o.health, o.happy);
            var a := CurrentPlayer(s).actual; var b := CurrentPlayer(r).actual;
            && r.pozo == s.pozo + 1000 * d
            && b.money == Max(0, a.money - 1000 * d)
            && b.health + b.happy == a.health + a.happy + d
            && (name == "VACACIONES" ==> b.happy == a.happy + d && b.health == a.health)
  {
  }

  class HospitalDialog {
    const tile: Tile
    const canInteract: bool
    var isRolling: bool
    var isRolled: bool
    var result: Option<Outcome>

    /** A result exists exactly once rolled, and it is the outcome of a
        die in 1..6. */
    predicate Valid()
      reads this
    {
      && (isRolled <==> result.Some?)
      && (result.Some? ==> exists d :: 1 <= d <= 6 && result.value == HospitalOutcome(tile.n, d))
    }

    constructor(tile: Tile, canInteract: bool)
      ensures Valid() && this.tile == tile && this.canInteract == canInteract
      ensures !isRolling && !isRolled
    {
      this.tile := tile;
      this.canInteract := canInteract;
      isRolling := false;
      isRolled := false;
      result := None;
    }

    /** `rollDie`, on the button shown until rolled: ignored while rolling
        or when the player cannot interact. */
    method Roll()
      requires Valid() && !isRolled
      modifies this
      ensures Valid() && result == old(result) && isRolled == old(isRolled)
      ensures isRolling == (old(isRolling) || canInteract)
    {
      if isRolling || !canInteract {
        return;
      }
      isRolling := true;
    }

    /** The die lands on the value drawn by `draw`. */
    method Land(draw: nat)
      requires Valid() && isRolling
      modifies this
      ensures Valid() && isRolled && !isRolling
      ensures result == Some(HospitalOutcome(tile.n, RollDie(draw)))
    {
      var d := RollDie(draw);
      result := Some(HospitalOutcome(tile.n, d));
      isRolled := true;
      isRolling := false;
    }

    /** `handleResolve`: a result is sent only once rolled and only when the
        player can interact. */
    method Resolve() returns (sent: Option<Outcome>)
      requires Valid()
      ensures sent.Some? <==> isRolled && canInteract
      ensures sent.Some? ==> sent == result
      ensures sent.Some? ==> exists d :: 1 <= d <= 6 && sent.value == HospitalOutcome(tile.n, d)
    {
      if result.None? || !canInteract {
        return None;
      }
      sent := result;
    }
  }
}
