/** Properties of the reducer that relate several actions or hold over
    whole runs: the success score, the invariants the transitions keep,
    the gift chain, the early-end tie rule, and the two discrepancies
    between the reducer as written and as intended. */
module GameReducerProperties {
  import opened GameTypes
  import opened GameReducer

  // ---------------------------------------------------------------------
  // Success score

  /** More money, health or happiness never lowers the success score. */
  lemma SuccessMonotone(p: Player, q: Player)
    requires p.metas == q.metas
    requires p.actual.money <= q.actual.money && p.actual.health <= q.actual.health && p.actual.happy <= q.actual.happy
    ensures CalculateSuccess(p) <= CalculateSuccess(q)
  {
    assert p.actual.money / 1000 <= q.actual.money / 1000;
  }

  // ---------------------------------------------------------------------
  // Non-negative stats

  predicate StatsNonNegative(a: Stats) {
    a.money >= 0 && a.health >= 0 && a.happy >= 0 && a.passive >= 0
  }

  predicate AllStatsNonNegative(ps: seq<Player>) {
    forall k :: 0 <= k < |ps| ==> StatsNonNegative(ps[k].actual)
  }

  /** A fine never drives anybody's money below zero. */
  lemma FineKeepsStatsNonNegative(s: GameState, tile: Tile)
    requires ValidCurrent(s) && tile.t == Multa && AllStatsNonNegative(s.players)
    ensures AllStatsNonNegative(ChargeFine(s, tile).players)
  {
    var r := ChargeFine(s, tile);
    forall k | 0 <= k < |r.players|
      ensures StatsNonNegative(r.players[k].actual)
    {
      assert StatsNonNegative(s.players[k].actual);
    }
  }

  /** Card resolution floors every stat it touches at zero. */
  lemma ResolveCardKeepsStatsNonNegative(s: GameState, accepted: bool)
    requires ResolveCardPre(s, accepted) && AllStatsNonNegative(s.players)
    ensures AllStatsNonNegative(ResolveCardStep(s, accepted).players)
  {
    var r := ResolveCardStep(s, accepted);
    assert StatsNonNegative(CurrentPlayer(s).actual);
    forall k | 0 <= k < |r.players|
      ensures StatsNonNegative(r.players[k].actual)
    {
      assert StatsNonNegative(s.players[k].actual);
    }
  }

  /** A declined card leaves every player as it was. */
  lemma ResolveCardDeclinedKeepsPlayers(s: GameState)
    requires ResolveCardPre(s, false)
    ensures ResolveCardStep(s, false).players == s.players
  {
    var r := ResolveCardStep(s, false);
    assert CurrentPlayer(r) == CurrentPlayer(s);
    assert forall k :: 0 <= k < |s.players| ==> r.players[k] == s.players[k];
  }

  /** Dice-event resolution floors the stats it touches at zero. */
  lemma DiceEventKeepsStatsNonNegative(s: GameState, rw: Rewards)
    requires ValidCurrent(s) && AllStatsNonNegative(s.players)
    ensures AllStatsNonNegative(ResolveDiceEventStep(s, rw).players)
  {
    var r := ResolveDiceEventStep(s, rw);
    assert StatsNonNegative(CurrentPlayer(s).actual);
    forall k | 0 <= k < |r.players|
      ensures StatsNonNegative(r.players[k].actual)
    {
      assert StatsNonNegative(s.players[k].actual);
    }
  }

  /** The hospital keeps stats non-negative whenever its result is. */
  lemma HospitalKeepsStatsNonNegative(s: GameState, cost: int, health: int, happy: int)
    requires ValidCurrent(s) && AllStatsNonNegative(s.players) && health >= 0 && happy >= 0
    ensures AllStatsNonNegative(ResolveHospitalStep(s, cost, health, happy).players)
  {
    var r := ResolveHospitalStep(s, cost, health, happy);
    assert StatsNonNegative(CurrentPlayer(s).actual);
    forall k | 0 <= k < |r.players|
      ensures StatsNonNegative(r.players[k].actual)
    {
      assert StatsNonNegative(s.players[k].actual);
    }
  }

  // ---------------------------------------------------------------------
  // Money and the pot

  /** A dice event creates exactly the money its floor swallows: money
      plus pot grows by the part of the loss the player could not pay. */
  lemma DiceEventMoneyGap(s: GameState, rw: Rewards)
    requires ValidCurrent(s) && IsSet(rw.money) && rw.money.value < 0
    ensures var r := ResolveDiceEventStep(s, rw); var m := CurrentPlayer(s).actual.money;
            TotalMoney(r.players) + r.pozo == TotalMoney(s.players) + s.pozo + Max(0, -(m + rw.money.value))
  {
    var r := ResolveDiceEventStep(s, rw);
    TotalMoneyUpdate(s.players, s.currentPlayerIndex, CurrentPlayer(r));
    assert r.players == s.players[s.currentPlayerIndex := CurrentPlayer(r)];
  }

  /** The hospital creates the part of its cost the player could not pay. */
  lemma HospitalMoneyGap(s: GameState, cost: int, health: int, happy: int)
    requires ValidCurrent(s)
    ensures var r := ResolveHospitalStep(s, cost, health, happy); var m := CurrentPlayer(s).actual.money;
            TotalMoney(r.players) + r.pozo == TotalMoney(s.players) + s.pozo + Max(0, cost - m)
  {
    var r := ResolveHospitalStep(s, cost, health, happy);
    TotalMoneyUpdate(s.players, s.currentPlayerIndex, CurrentPlayer(r));
    assert r.players == s.players[s.currentPlayerIndex := CurrentPlayer(r)];
  }

  /** A donation round collects a non-negative total, and a positive one as
      soon as some donor has money. */
  lemma {:induction false} DonationTotalPositive(ps: seq<Player>, landerId: int, a: int)
    requires a > 0
    requires forall k :: 0 <= k < |ps| ==> ps[k].actual.money >= 0
    ensures Donations(ps, landerId, a).1 >= 0
    ensures (exists k :: 0 <= k < |ps| && ps[k].id != landerId && ps[k].actual.money > 0) ==>
              Donations(ps, landerId, a).1 > 0
  {
    if ps != [] {
      DonationTotalPositive(ps[1..], landerId, a);
      if exists k :: 0 <= k < |ps| && ps[k].id != landerId && ps[k].actual.money > 0 {
        var k :| 0 <= k < |ps| && ps[k].id != landerId && ps[k].actual.money > 0;
        if k > 0 {
          assert ps[1..][k - 1] == ps[k];
        }
      }
    }
  }

  /** "Todos Donan" as written credits the pot with donations nobody paid:
      once the community card is accepted, money plus pot has grown. */
  lemma TodosDonanAsWrittenCreatesMoney(players: seq<Player>, landerId: int, a: int)
    requires a > 0
    requires forall k :: 0 <= k < |players| ==> players[k].actual.money >= 0
    requires exists k :: 0 <= k < |players| && players[k].id != landerId && players[k].actual.money > 0
    ensures var w := TodosDonanAsWritten(players, landerId, a);
            TotalMoney(w.0) + SetValue(w.1.r.value.pozoAdd) > TotalMoney(players)
  {
    DonationTotalPositive(players, landerId, a);
  }

  /** A "Todos Donan" landing without a lap, by a player who does not win
      on it, as FINISH_MOVE followed by accepting the community card. */
  predicate TodosDonanRound(s: GameState, c: Config) {
    && ValidConfig(c) && FinishMovePre(s, c)
    && IsTodosDonan(c.mainBoard[CurrentPlayer(s).actual.pos])
    && CurrentPlayer(s).actual.pos >= s.moveDetails.value.startPos
    && CalculateSuccess(CurrentPlayer(s)) < 100
  }

  /** "Todos Donan" as intended moves money from the donors to the pot:
      after FINISH_MOVE and RESOLVE_CARD(true), money held plus the pot is
      what it was before the move was settled. */
  lemma TodosDonanConservesMoney(s: GameState, c: Config, draw: nat)
    requires TodosDonanRound(s, c)
    ensures var t := FinishMoveStep(s, c, draw);
            && ResolveCardPre(t, true)
            && var u := ResolveCardStep(t, true);
               TotalMoney(u.players) + u.pozo == TotalMoney(s.players) + s.pozo
  {
    var cur := s.currentPlayerIndex;
    var tile := c.mainBoard[CurrentPlayer(s).actual.pos];
    var d := Donations(s.players, CurrentPlayer(s).id, tile.a);
    assert s.players[cur := Settled(s)] == s.players;
    var t := FinishMoveStep(s, c, draw);
    assert t.players == d.0;
    assert t.activeModal == Some(CardShown(CommunityCard(d.1), "COMUNIDAD"));
    assert CardResolvedPlayer(t, true) == CurrentPlayer(t);
    assert t.players[cur := CurrentPlayer(t)] == t.players;
  }

  /** "Todos Donan" as written: the same round leaves the donors' money in
      place and still adds the total to the pot, so money plus pot grows
      as soon as some donor has money. */
  lemma TodosDonanAsWrittenRoundCreatesMoney(s: GameState, c: Config, draw: nat)
    requires TodosDonanRound(s, c)
    requires c.mainBoard[CurrentPlayer(s).actual.pos].a > 0
    requires forall k :: 0 <= k < |s.players| ==> s.players[k].actual.money >= 0
    requires exists k :: 0 <= k < |s.players| && s.players[k].id != CurrentPlayer(s).id && s.players[k].actual.money > 0
    ensures var t := FinishMoveAsWritten(s, c, draw);
            && ResolveCardPre(t, true)
            && var u := ResolveCardStep(t, true);
               TotalMoney(u.players) + u.pozo > TotalMoney(s.players) + s.pozo
  {
    var cur := s.currentPlayerIndex;
    var tile := c.mainBoard[CurrentPlayer(s).actual.pos];
    var d := Donations(s.players, CurrentPlayer(s).id, tile.a);
    DonationTotalPositive(s.players, CurrentPlayer(s).id, tile.a);
    assert s.players[cur := Settled(s)] == s.players;
    var t := FinishMoveAsWritten(s, c, draw);
    assert t.players == s.players;
    assert t.activeModal == Some(CardShown(CommunityCard(d.1), "COMUNIDAD"));
    assert CardResolvedPlayer(t, true) == CurrentPlayer(t);
    assert t.players[cur := CurrentPlayer(t)] == t.players;
  }

  // ---------------------------------------------------------------------
  // The gift chain

  predicate GiftChainReady(s: GameState) {
    && GiftPre(s)
    && (forall k :: 0 <= k < |s.activeModal.value.pendingGiverIndices| ==>
          0 <= s.activeModal.value.pendingGiverIndices[k] < |s.players|)
  }

  /** The receiver is neither the current giver nor a pending one. */
  predicate ReceiverApart(s: GameState)
    requires GiftPre(s)
  {
    var m := s.activeModal.value;
    0 <= m.receiverIndex < |s.players| && m.receiverIndex != m.giverIndex && m.receiverIndex !in m.pendingGiverIndices
  }

  /** The state after the givers hand over `gifts`, one RESOLVE_GIFT each. */
  function RunGifts(s: GameState, gifts: seq<Rewards>): (r: GameState)
    requires GiftChainReady(s) && |gifts| <= |s.activeModal.value.pendingGiverIndices| + 1
    decreases |gifts|
    ensures |r.players| == |s.players| && r.currentPlayerIndex == s.currentPlayerIndex
  {
    if gifts == [] then s
    else
      var t := ResolveGiftStep(s, gifts[0]);
      if |gifts| == 1 then t else RunGifts(t, gifts[1..])
  }

  /** All gifts added to an accumulator, in order. */
  function AccumulateAll(acc: Rewards, gifts: seq<Rewards>): Rewards
    decreases |gifts|
  {
    if gifts == [] then acc else AccumulateAll(Accumulate(acc, gifts[0]), gifts[1..])
  }

  /** One RESOLVE_GIFT moves money from the giver to the accumulator. */
  lemma GiftStepMoney(s: GameState, g: Rewards)
    requires GiftPre(s)
    ensures var t := ResolveGiftStep(s, g); var m := s.activeModal.value;
            TotalMoney(t.players) + SetValue(Accumulate(m.accumulatedGifts, g).money)
            == TotalMoney(s.players) + SetValue(m.accumulatedGifts.money)
  {
    var m := s.activeModal.value;
    var giver := s.players[m.giverIndex];
    TotalMoneyUpdate(s.players, m.giverIndex, giver.(actual := Deduct(giver.actual, g)));
  }

  /** One RESOLVE_GIFT pops the queue: the next giver is its head. */
  lemma GiftStepQueue(s: GameState, g: Rewards)
    requires GiftChainReady(s) && |s.activeModal.value.pendingGiverIndices| > 0
    ensures var t := ResolveGiftStep(s, g); var m := s.activeModal.value;
            && GiftChainReady(t)
            && t.activeModal.value == GiftSelection(m.pendingGiverIndices[0], m.receiverIndex,
                                                    m.pendingGiverIndices[1..], Accumulate(m.accumulatedGifts, g))
  {
  }

  /** One RESOLVE_GIFT leaves a receiver apart from the givers alone. */
  lemma GiftStepReceiver(s: GameState, g: Rewards)
    requires GiftChainReady(s) && ReceiverApart(s)
    ensures var t := ResolveGiftStep(s, g); var m := s.activeModal.value;
            && t.players[m.receiverIndex] == s.players[m.receiverIndex]
            && (|m.pendingGiverIndices| > 0 ==> ReceiverApart(t))
  {
    var m := s.activeModal.value;
    if |m.pendingGiverIndices| > 0 {
      assert m.receiverIndex !in m.pendingGiverIndices[1..];
    }
  }

  /** While the chain runs the receiver is never touched. */
  lemma {:induction false} GiftChainKeepsReceiver(s: GameState, gifts: seq<Rewards>)
    requires GiftChainReady(s) && |gifts| <= |s.activeModal.value.pendingGiverIndices| + 1 && ReceiverApart(s)
    ensures RunGifts(s, gifts).players[s.activeModal.value.receiverIndex]
            == s.players[s.activeModal.value.receiverIndex]
    decreases |gifts|
  {
    if gifts != [] {
      GiftStepReceiver(s, gifts[0]);
      if |gifts| > 1 {
        GiftStepQueue(s, gifts[0]);
        GiftChainKeepsReceiver(ResolveGiftStep(s, gifts[0]), gifts[1..]);
      }
    }
  }

  /** After `k` gifts the `k`-th pending giver is asked, with the first `k`
      gifts accumulated. */
  lemma {:induction false} GiftChainAsksNext(s: GameState, gifts: seq<Rewards>)
    requires GiftChainReady(s) && 0 < |gifts| <= |s.activeModal.value.pendingGiverIndices|
    ensures var m := s.activeModal.value;
            RunGifts(s, gifts).activeModal
            == Some(GiftSelection(m.pendingGiverIndices[|gifts| - 1], m.receiverIndex,
                                  m.pendingGiverIndices[|gifts|..], AccumulateAll(m.accumulatedGifts, gifts)))
    decreases |gifts|
  {
    var m := s.activeModal.value;
    GiftStepQueue(s, gifts[0]);
    if |gifts| > 1 {
      var t := ResolveGiftStep(s, gifts[0]);
      GiftChainAsksNext(t, gifts[1..]);
      assert m.pendingGiverIndices[1..][|gifts| - 2] == m.pendingGiverIndices[|gifts| - 1];
      assert m.pendingGiverIndices[1..][|gifts[1..]|..] == m.pendingGiverIndices[|gifts|..];
    }
  }

  /** When the last giver has given, the summary card carries the sum of
      all gifts and waits in TILE_ACTION for its answer, and money handed
      over plus money held is unchanged. */
  lemma {:induction false} GiftChainCompletes(s: GameState, gifts: seq<Rewards>)
    requires GiftChainReady(s) && |gifts| == |s.activeModal.value.pendingGiverIndices| + 1
    ensures var r := RunGifts(s, gifts); var acc := s.activeModal.value.accumulatedGifts;
            && r.activeModal == Some(CardShown(BirthdaySummaryCard(AccumulateAll(acc, gifts)), "CUMPLEAÑOS"))
            && r.turnPhase == TileAction && !r.isShowingStatChanges
            && TotalMoney(r.players) + SetValue(AccumulateAll(acc, gifts).money)
               == TotalMoney(s.players) + SetValue(acc.money)
    decreases |gifts|
  {
    GiftStepMoney(s, gifts[0]);
    if |gifts| > 1 {
      GiftStepQueue(s, gifts[0]);
      GiftChainCompletes(ResolveGiftStep(s, gifts[0]), gifts[1..]);
    }
  }

  /** With the corrected chain, a birthday credits the receiver exactly
      once: accepting the summary card applies the total to the stats the
      receiver had when the chain started. */
  lemma BirthdayCreditsReceiverOnce(s: GameState, gifts: seq<Rewards>)
    requires GiftChainReady(s) && |gifts| == |s.activeModal.value.pendingGiverIndices| + 1 && ReceiverApart(s)
    requires s.activeModal.value.receiverIndex == s.currentPlayerIndex
    ensures var t := RunGifts(s, gifts);
            && ValidCurrent(t) && t.activeModal.Some? && t.activeModal.value.CardShown?
            && CurrentPlayer(ResolveCardStep(t, true)).actual
               == ApplyCardRewards(CurrentPlayer(s).actual, AccumulateAll(s.activeModal.value.accumulatedGifts, gifts))
  {
    GiftChainKeepsReceiver(s, gifts);
    GiftChainCompletes(s, gifts);
  }

  /** The chain as written credits the receiver twice: once at the last
      RESOLVE_GIFT and once more when the summary card is accepted. */
  lemma ResolveGiftAsWrittenCreditsTwice(s: GameState, g: Rewards)
    requires GiftAsWrittenPre(s)
    requires var m := s.activeModal.value;
             m.pendingGiverIndices == [] && m.receiverIndex == s.currentPlayerIndex && m.giverIndex != m.receiverIndex
             && !IsSet(m.accumulatedGifts.money)
    requires IsSet(g.money) && g.money.value > 0 && CurrentPlayer(s).actual.money >= 0
    ensures var r := ResolveCardStep(ResolveGiftAsWritten(s, g), true);
            CurrentPlayer(r).actual.money == CurrentPlayer(s).actual.money + 2 * g.money.value
  {
  }

  // ---------------------------------------------------------------------
  // Early end

  /** The reduce keeps the earliest index of maximal success. */
  lemma {:induction false} ReduceBestIsEarliestMax(ps: seq<Player>, k: nat, best: nat)
    requires best < |ps| && k <= |ps| && best <= k
    requires forall j :: 0 <= j < k ==> CalculateSuccess(ps[j]) <= CalculateSuccess(ps[best])
    requires forall j :: 0 <= j < best ==> CalculateSuccess(ps[j]) < CalculateSuccess(ps[best])
    ensures var b := ReduceBest(ps, k, best);
            && (forall j :: 0 <= j < |ps| ==> CalculateSuccess(ps[j]) <= CalculateSuccess(ps[b]))
            && (forall j :: 0 <= j < b ==> CalculateSuccess(ps[j]) < CalculateSuccess(ps[b]))
    decreases |ps| - k
  {
    if k < |ps| {
      var next := if CalculateSuccess(ps[k]) > CalculateSuccess(ps[best]) then k else best;
      ReduceBestIsEarliestMax(ps, k + 1, next);
    }
  }

  /** END_GAME_EARLY crowns a player of maximal success, and on a tie the
      earliest one. */
  lemma EndGameEarlyWinner(s: GameState)
    requires |s.players| > 0
    ensures var r := EndGameEarlyStep(s);
            && r.gameStatus == Celebrating && r.winner.Some?
            && exists b :: 0 <= b < |s.players| && r.winner.value == s.players[b]
                 && (forall j :: 0 <= j < |s.players| ==> CalculateSuccess(s.players[j]) <= CalculateSuccess(s.players[b]))
                 && (forall j :: 0 <= j < b ==> CalculateSuccess(s.players[j]) < CalculateSuccess(s.players[b]))
  {
    ReduceBestIsEarliestMax(s.players, 0, 0);
  }

  // ---------------------------------------------------------------------
  // Sync and load

  /** The present slots of a keyed `players` object are exactly its
      values: a keyed object without gaps normalises to the list. */
  lemma {:induction false} CompactAllPresent(ps: seq<Player>)
    ensures Compact(seq(|ps|, k requires 0 <= k < |ps| => Some(ps[k]))) == ps
  {
    if ps != [] {
      CompactAllPresent(ps[1..]);
      assert seq(|ps|, k requires 0 <= k < |ps| => Some(ps[k]))[1..]
             == seq(|ps[1..]|, k requires 0 <= k < |ps[1..]| => Some(ps[1..][k]));
    }
  }

  /** Applying the same snapshot twice is the same as applying it once. */
  lemma SyncIdempotent(s: GameState, remote: RemoteSnapshot)
    ensures SyncOnlineStateStep(SyncOnlineStateStep(s, remote), remote) == SyncOnlineStateStep(s, remote)
  {
    var t := SyncOnlineStateStep(s, remote);
    assert RoomOrNull(t.roomId) == t.roomId && IdOrNull(t.localPlayerId) == t.localPlayerId;
  }

  // ---------------------------------------------------------------------
  // Well-formedness across the game

  /** The current index is valid (0 while nobody has been saved yet), and
      every player in a route knows which route. */
  predicate WellFormed(s: GameState) {
    && ((|s.players| == 0 && s.currentPlayerIndex == 0) || ValidCurrent(s))
    && (forall k :: 0 <= k < |s.players| ==> (s.players[k].inRoute ==> s.players[k].rId.Some?))
  }

  /** Two player lists agree on who is in which route. */
  predicate SameRoutes(a: seq<Player>, b: seq<Player>) {
    |a| == |b| && forall k :: 0 <= k < |a| ==> a[k].inRoute == b[k].inRoute && a[k].rId == b[k].rId
  }

  lemma SameRoutesKeepWellFormed(s: GameState, r: GameState)
    requires WellFormed(s) && SameRoutes(s.players, r.players) && r.currentPlayerIndex == s.currentPlayerIndex
    ensures WellFormed(r)
  {
    forall k | 0 <= k < |r.players|
      ensures r.players[k].inRoute ==> r.players[k].rId.Some?
    {
      assert s.players[k].inRoute == r.players[k].inRoute;
    }
  }

  /** A transition that rewrites only the current player, keeping its
      route, keeps the state well formed. */
  lemma CurrentOnlyKeepsWellFormed(s: GameState, r: GameState)
    requires WellFormed(s) && ValidCurrent(s) && |r.players| == |s.players|
    requires r.currentPlayerIndex == s.currentPlayerIndex
    requires forall k :: 0 <= k < |s.players| && k != s.currentPlayerIndex ==> r.players[k] == s.players[k]
    requires CurrentPlayer(r).inRoute == CurrentPlayer(s).inRoute && CurrentPlayer(r).rId == CurrentPlayer(s).rId
    ensures WellFormed(r)
  {
    assert SameRoutes(s.players, r.players);
    SameRoutesKeepWellFormed(s, r);
  }

  lemma FinishMoveKeepsWellFormed(s: GameState, c: Config, draw: nat)
    requires ValidConfig(c) && FinishMovePre(s, c) && WellFormed(s)
    ensures WellFormed(FinishMoveStep(s, c, draw))
  {
    var r := FinishMoveStep(s, c, draw);
    forall k | 0 <= k < |s.players|
      ensures r.players[k].inRoute == s.players[k].inRoute && r.players[k].rId == s.players[k].rId
    {
      if k != s.currentPlayerIndex {
        assert r.players[k].(actual := s.players[k].actual) == s.players[k];
      }
    }
    SameRoutesKeepWellFormed(s, r);
  }

  /** Graduation keeps the player in the route until the cue ends. */
  lemma FinishRouteMoveKeepsWellFormed(s: GameState, c: Config, overflow: int, draw: nat)
    requires ValidConfig(c) && FinishRouteMovePre(s, c) && WellFormed(s)
    ensures WellFormed(FinishRouteMoveStep(s, c, overflow, draw))
  {
    CurrentOnlyKeepsWellFormed(s, FinishRouteMoveStep(s, c, overflow, draw));
  }

  /** Entering a route records which route. */
  lemma DecideRouteKeepsWellFormed(s: GameState, c: Config, enter: bool)
    requires ValidCurrent(s) && (enter ==> s.currentTile.Some?) && WellFormed(s)
    ensures WellFormed(DecideRouteStep(s, c, enter))
  {
    var r := DecideRouteStep(s, c, enter);
    forall k | 0 <= k < |r.players|
      ensures r.players[k].inRoute ==> r.players[k].rId.Some?
    {
      if k != s.currentPlayerIndex {
        assert r.players[k] == s.players[k];
      }
    }
  }

  lemma EndAnimationKeepsWellFormed(s: GameState)
    requires EndAnimationPre(s) && WellFormed(s)
    ensures WellFormed(EndAnimationStep(s))
  {
    var r := EndAnimationStep(s);
    if s.animationType == Some(Graduation) {
      forall k | 0 <= k < |r.players|
        ensures r.players[k].inRoute ==> r.players[k].rId.Some?
      {
        if k != s.currentPlayerIndex {
          assert r.players[k] == s.players[k];
        }
      }
    }
  }

  lemma FineKeepsWellFormed(s: GameState, tile: Tile)
    requires ValidCurrent(s) && tile.t == Multa && WellFormed(s)
    ensures WellFormed(ChargeFine(s, tile))
  {
    var f := FinePayments(s.players, s.currentPlayerIndex, tile);
    assert SameRoutes(s.players, f.0);
    SameRoutesKeepWellFormed(s, ChargeFine(s, tile));
  }

  /** The fine, bonus and turn-rotation branches of ADVANCE_TURN_PHASE keep
      the state well formed. */
  lemma AdvanceKeepsWellFormed(s: GameState, c: Config, draw: nat)
    requires ValidConfig(c) && AdvancePre(s) && WellFormed(s)
    ensures WellFormed(AdvanceTurnPhaseStep(s, c, draw))
  {
    if s.turnPhase == TileInfo && s.currentTile.Some? {
      var tile := s.currentTile.value;
      if tile.t == Multa {
        FineKeepsWellFormed(s, tile);
      } else if tile.t == Bonus && tile.n == "Ganaste" {
        CurrentOnlyKeepsWellFormed(s, GanasteStep(s, tile.a));
      }
    }
  }
}
