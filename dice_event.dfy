/** The dice-event modal: one die decides the rewards of an event tile. */
module DiceEventModal {
  import opened GameTypes
  import opened GameReducer

  /** The tiles whose event costs `1000 * d` money. */
  predicate CostsMoney(name: string) {
    name in {"Restaurante", "Demanda", "Impuestos", "Casino"}
  }

  /** The tile names the reward table knows. */
  predicate IsEventTile(name: string) {
    name in {"Restaurante", "Demanda", "Impuestos", "Causa Social", "Contaminación",
             "Alerta Pandemia", "Casino", "Familia"}
  }

  /** The reward table of `rollEventDie` for tile `name` and die `d`. */
  function EventRewards(name: string, d: int): (r: Rewards)
    ensures name in {"Restaurante", "Demanda", "Impuestos"} ==> r == MoneyReward(-1000 * d)
    ensures name == "Causa Social" ==> r == MoneyReward(1000 * d)
    ensures name in {"Contaminación", "Alerta Pandemia"} ==> r == NoRewards.(health := Some(-d))
    ensures name == "Casino" ==> r == NoRewards.(money := Some(-1000 * d), happy := Some(-d))
    ensures name == "Familia" ==> r == NoRewards.(money := Some(1000 * d), health := Some(d))
    ensures !IsEventTile(name) ==> r == NoRewards
    ensures r.passive == None && r.pozoAdd == None && !r.pozoReset && r.globalDonate == None
  {
    if name == "Restaurante" || name == "Demanda" || name == "Impuestos" then MoneyReward(-1000 * d)
    else if name == "Causa Social" then MoneyReward(1000 * d)
    else if name == "Contaminación" || name == "Alerta Pandemia" then NoRewards.(health := Some(-d))
    else if name == "Casino" then NoRewards.(money := Some(-1000 * d), happy := Some(-d))
    else if name == "Familia" then NoRewards.(money := Some(1000 * d), health := Some(d))
    else NoRewards
  }

  /** Resolving an event: the pot grows by `1000 * d` exactly on the tiles
      that cost money, and the current player's money is floored at zero. */
  lemma EventFillsPot(s: GameState, name: string, d: int)
    requires ValidCurrent(s) && 1 <= d <= 6
    ensures var r := ResolveDiceEventStep(s, EventRewards(name, d));
            && r.pozo == s.pozo + (if CostsMoney(name) then 1000 * d else 0)
            && (CostsMoney(name) ==>
                  CurrentPlayer(r).actual.money == Max(0, CurrentPlayer(s).actual.money - 1000 * d))
  {
    var r := ResolveDiceEventStep(s, EventRewards(name, d));
    if CostsMoney(name) {
      assert EventRewards(name, d).money == Some(-1000 * d);
    }
  }

  /** The modal's state: `die` is the value shown once rolled. */
  class DiceEventDialog {
    const tile: Tile
    var isRolling: bool
    var isRolled: bool
    var die: int
    var rewards: Rewards

    /** What the modal keeps: before the roll it holds the empty reward,
        after it the table entry of the rolled die. */
    predicate Valid()
      reads this
    {
      && (!isRolled ==> rewards == NoRewards)
      && (isRolled ==> 1 <= die <= 6 && rewards == EventRewards(tile.n, die))
    }

    constructor(tile: Tile)
      ensures Valid() && this.tile == tile && !isRolling && !isRolled
    {
      this.tile := tile;
      isRolling := false;
      isRolled := false;
      die := 0;
      rewards := NoRewards;
    }

    /** The roll button, shown until the die has been rolled: ignored while
        the die rolls. */
    method Roll()
      requires Valid() && !isRolled
      modifies this
      ensures Valid() && isRolling && !isRolled
      ensures rewards == old(rewards) && die == old(die)
    {
      if isRolling {
        return;
      }
      isRolling := true;
    }

    /** The die lands on the value drawn by `draw`. */
    method Land(draw: nat)
      requires Valid() && isRolling
      modifies this
      ensures Valid() && isRolled && !isRolling
      ensures die == RollDie(draw) && rewards == EventRewards(tile.n, die)
    {
      die := RollDie(draw);
      rewards := EventRewards(tile.n, die);
      isRolled := true;
      isRolling := false;
    }

    /** The resolve button, shown once rolled: it sends the table entry of
        the rolled die for this tile. */
    method Resolve() returns (rw: Rewards)
      requires Valid() && isRolled
      ensures rw == rewards
      ensures exists d :: 1 <= d <= 6 && rw == EventRewards(tile.n, d)
    {
      rw := rewards;
    }
  }
}
