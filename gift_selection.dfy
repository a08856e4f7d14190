/** The birthday gift modal: three counters, bounded by the giver's stats,
    and the gift its confirm button sends to RESOLVE_GIFT. */
module GiftSelectionModal {
  import opened GameTypes
  import opened GameReducer

  datatype Counter = MoneyCounter | HealthCounter | HappyCounter

  /** The step of a counter's buttons. */
  function StepOf(k: Counter): (step: int)
    ensures step > 0
  {
    if k == MoneyCounter then 1000 else 1
  }

  /** The "Máx" of a counter: the giver's stat it gives away. */
  function MaxOf(k: Counter, giver: Player): int {
    match k
    case MoneyCounter => giver.actual.money
    case HealthCounter => giver.actual.health
    case HappyCounter => giver.actual.happy
  }

  /** The value after a click: "+" goes up one step but not past `max`,
      "-" goes down one step but not below zero. */
  function Clicked(v: int, step: int, max: int, plus: bool): (r: int)
    requires step > 0
    ensures plus ==> r <= max && (r == v + step || r == max)
    ensures !plus ==> r >= 0 && (r == v - step || r == 0)
    ensures plus && v + step <= max ==> r == v + step
    ensures !plus && v - step >= 0 ==> r == v - step
    ensures 0 <= v <= max ==> 0 <= r <= max
  {
    if plus then Min(max, v + step) else Max(0, v - step)
  }

  /** The gift that sends all three counters. */
  function GiftOf(money: int, health: int, happy: int): (g: Rewards)
    ensures SetValue(g.money) == money && SetValue(g.health) == health && SetValue(g.happy) == happy
    ensures g.passive == None && !g.pozoReset && g.pozoAdd == None && g.globalDonate == None
  {
    NoRewards.(money := Some(money), health := Some(health), happy := Some(happy))
  }

  /** A gift within the giver's stats leaves them no debt: RESOLVE_GIFT
      deducts exactly the gift and every stat stays non-negative. */
  lemma GiftWithinStatsKeepsGiverSolvent(s: GameState, money: int, health: int, happy: int)
    requires GiftPre(s)
    requires var a := s.players[s.activeModal.value.giverIndex].actual;
             0 <= money <= a.money && 0 <= health <= a.health && 0 <= happy <= a.happy
    ensures var i := s.activeModal.value.giverIndex;
            var a := s.players[i].actual;
            var b := ResolveGiftStep(s, GiftOf(money, health, happy)).players[i].actual;
            && b.money == a.money - money && b.health == a.health - health && b.happy == a.happy - happy
            && b.money >= 0 && b.health >= 0 && b.happy >= 0
  {
    var i := s.activeModal.value.giverIndex;
    assert ResolveGiftStep(s, GiftOf(money, health, happy)).players[i].actual
        == Deduct(s.players[i].actual, GiftOf(money, health, happy));
  }

  /** The modal's state: the giver it is shown for and its three counters. */
  class GiftCounters {
    var giver: Player
    var moneyGift: int
    var healthGift: int
    var happyGift: int

    function ValueOf(k: Counter): int
      reads this
    {
      match k
      case MoneyCounter => moneyGift
      case HealthCounter => healthGift
      case HappyCounter => happyGift
    }

    /** Every counter lies between zero and the giver's stat. */
    predicate InRange()
      reads this
    {
      && 0 <= moneyGift <= giver.actual.money
      && 0 <= healthGift <= giver.actual.health
      && 0 <= happyGift <= giver.actual.happy
    }

    function Total(): int
      reads this
    {
      moneyGift + healthGift + happyGift
    }

    /** Mounting the modal for the first giver: all counters at zero. */
    constructor(giver: Player)
      ensures this.giver == giver && moneyGift == 0 && healthGift == 0 && happyGift == 0
      ensures giver.actual.money >= 0 && giver.actual.health >= 0 && giver.actual.happy >= 0 ==> InRange()
    {
      this.giver := giver;
      moneyGift := 0;
      healthGift := 0;
      happyGift := 0;
    }

    /** The modal as the game renders it when RESOLVE_GIFT passes the turn
        to the next giver: the same instance receives the new giver, and
        the counters keep the values chosen for the previous one. */
    method Rerender(next: Player)
      modifies this
      ensures giver == next
      ensures moneyGift == old(moneyGift) && healthGift == old(healthGift) && happyGift == old(happyGift)
    {
      giver := next;
    }

    /** The modal opened afresh for each giver: the counters restart at
        zero, so they lie within the new giver's stats. */
    method OpenFor(next: Player)
      modifies this
      ensures giver == next
      ensures moneyGift == 0 && healthGift == 0 && happyGift == 0
      ensures giver.actual.money >= 0 && giver.actual.health >= 0 && giver.actual.happy >= 0 ==> InRange()
    {
      giver := next;
      moneyGift := 0;
      healthGift := 0;
      happyGift := 0;
    }

    /** A click on the "+" or "-" button of counter `k`; the other counters
        and the giver stay, and a counter in range stays in range. */
    method Click(k: Counter, plus: bool)
      modifies this
      ensures giver == old(giver)
      ensures ValueOf(k) == Clicked(old(ValueOf(k)), StepOf(k), MaxOf(k, giver), plus)
      ensures k != MoneyCounter ==> moneyGift == old(moneyGift)
      ensures k != HealthCounter ==> healthGift == old(healthGift)
      ensures k != HappyCounter ==> happyGift == old(happyGift)
      ensures old(InRange()) ==> InRange()
    {
      var v := Clicked(ValueOf(k), StepOf(k), MaxOf(k, giver), plus);
      match k
      case MoneyCounter => moneyGift := v;
      case HealthCounter => healthGift := v;
      case HappyCounter => happyGift := v;
    }

    /** `handleConfirm`: a gift is sent only when something is given, and
        it always carries all three counters; within range it is one the
        giver can afford. */
    method Confirm() returns (gift: Option<Rewards>)
      ensures gift.Some? <==> Total() > 0
      ensures gift.Some? ==> gift.value == GiftOf(moneyGift, healthGift, happyGift)
      ensures gift.Some? && InRange() ==>
                var b := Deduct(giver.actual, gift.value);
                b.money >= 0 && b.health >= 0 && b.happy >= 0
    {
      if Total() > 0 {
        gift := Some(GiftOf(moneyGift, healthGift, happyGift));
      } else {
        gift := None;
      }
    }
  }

  /** A giver with the given money and 10 health and happiness. */
  function Giver(id: int, money: int): Player {
    Player(id, "", "", "", Metas(0, 0, 0, 0), Stats(0, money, 10, 10, 0), false, None, 0, [], 0)
  }

  /** The modal as written lets a later giver give what only an earlier
      one had: the first giver, with 5000, gives 5000; the next giver, with
      1000, confirms the counters as they were left, and the deduction of
      RESOLVE_GIFT leaves them at -4000. */
  method StaleCountersOverdraw() returns (firstGift: Option<Rewards>, gift: Option<Rewards>, debt: int)
    ensures firstGift == Some(GiftOf(5000, 0, 0))
    ensures gift == Some(GiftOf(5000, 0, 0))
    ensures debt == -4000
  {
    var first := Giver(1, 5000);
    var second := Giver(2, 1000);
    var counters := new GiftCounters(first);
    var n := 0;
    while n < 5
      invariant 0 <= n <= 5 && counters.giver == first
      invariant counters.moneyGift == 1000 * n && counters.healthGift == 0 && counters.happyGift == 0
    {
      counters.Click(MoneyCounter, true);
      n := n + 1;
    }
    firstGift := counters.Confirm();
    counters.Rerender(second);
    gift := counters.Confirm();
    debt := Deduct(second.actual, gift.value).money;
  }

  /** One giver's turn with the modal opened afresh: whatever buttons the
      giver presses, the gift confirmed is one they can afford, and
      RESOLVE_GIFT leaves none of their stats negative. */
  method GiveOnce(counters: GiftCounters, giver: Player, clicks: seq<(Counter, bool)>) returns (gift: Option<Rewards>)
    requires giver.actual.money >= 0 && giver.actual.health >= 0 && giver.actual.happy >= 0
    modifies counters
    ensures counters.giver == giver && counters.InRange()
    ensures gift.Some? <==> counters.Total() > 0
    ensures gift.Some? ==>
              var b := Deduct(giver.actual, gift.value);
              b.money >= 0 && b.health >= 0 && b.happy >= 0
  {
    counters.OpenFor(giver);
    var i := 0;
    while i < |clicks|
      invariant 0 <= i <= |clicks|
      invariant counters.giver == giver && counters.InRange()
    {
      counters.Click(clicks[i].0, clicks[i].1);
      i := i + 1;
    }
    gift := counters.Confirm();
  }
}
