/** The turn and phase state machine: one transition function per action
    of the game reducer, and `Reduce`, which dispatches on the action.
    Every random draw of the reducer is an explicit `draw` argument. */
module GameReducer {
  import opened GameTypes

  /** A field of a remote snapshot: the backing store drops null and empty
      values, so a field may be missing altogether. */
  datatype Field<T> = Absent | Present(value: T)

  /** How `players` arrives from the store: a list, a list with gaps that
      the store has turned into an index-keyed object (slot `k` holds the
      value under key `k`), or nothing at all. */
  datatype PlayersField = PlayersList(list: seq<Player>) | PlayersKeyed(slots: seq<Option<Player>>) | PlayersMissing

  /** How `dice` arrives: a list, or anything else (missing, null, object). */
  datatype DiceField = DiceList(values: seq<int>) | DiceNotList

  /** A game state snapshot as the realtime store delivers it. */
  datatype RemoteSnapshot = RemoteSnapshot(
    gameStatus: Field<GameStatus>,
    totalPlayers: Field<int>,
    setupPlayerIndex: Field<int>,
    players: PlayersField,
    currentPlayerIndex: Field<int>,
    pozo: Field<int>,
    activeModal: Field<Option<ActiveModal>>,
    currentTile: Field<Option<Tile>>,
    showTurnOverlay: Field<bool>,
    winner: Field<Option<Player>>,
    dice: DiceField,
    isRolling: Field<bool>,
    passiveIncomeBanner: Field<Option<Banner>>,
    isMoving: Field<bool>,
    moveDetails: Field<Option<MoveDetails>>,
    isMovingInRoute: Field<bool>,
    routeMoveDetails: Field<Option<RouteMoveDetails>>,
    isShowingStatChanges: Field<bool>,
    turnPhase: Field<TurnPhase>,
    animationType: Field<Option<Animation>>,
    animationData: Field<Option<AnimationData>>,
    overflowSteps: Field<int>,
    roomId: Field<Option<string>>,
    isHost: Field<bool>,
    localPlayerId: Field<Option<int>>,
    lastSource: Field<Source>)

  /** The reducer's actions.  START_GAME and SHOW_TURN_OVERLAY are declared
      by the source but have no case: they leave the state alone. */
  datatype Action =
    | ShowStartScreen
    | StartSetup(count: int)
    | SavePlayer(draft: PlayerDraft)
    | StartGame
    | ShowTurnOverlay
    | StartTurn
    | RollDice
    | FinishRoll(d1: int, d2: int)
    | DecideRoute(enter: bool)
    | ResolveCard(accepted: bool)
    | ResolveDiceEvent(rewards: Rewards)
    | ResolveHospital(cost: int, health: int, happy: int)
    | ResolveGift(gift: Rewards)
    | EndGameEarly
    | ResetGame
    | UpdatePlayerPosition(pos: int)
    | FinishMoveAction
    | UpdatePlayerRouteStep(step: int)
    | FinishRouteMove(overflow: int)
    | AdvanceTurnPhase
    | HidePassiveIncomeBanner
    | EndAnimation
    | FinishWinAnimation
    | LoadSavedGame(saved: GameState)
    | SyncOnlineState(remote: RemoteSnapshot)
    | SetRoomId(roomId: string, host: bool)
    | ShowLobby

  const InitialState := GameState(
    Intro, 0, 0, [], 0, 0, None, None, false, None, [0, 0], false, None, false, None,
    false, None, false, Idle, None, None, 0, None, false, None, Local)

  const DefaultRouteFee := 3000
  const PassiveIncrement := 1000

  // ---------------------------------------------------------------------
  // Success score and stat comparison

  /** The success score: time points plus each stat capped by its goal. */
  function CalculateSuccess(p: Player): (r: int)
    ensures r <= p.metas.t + p.metas.d + p.metas.s + p.metas.h
    ensures (&& p.actual.money >= 0 && p.actual.health >= 0 && p.actual.happy >= 0
             && p.metas.d >= 0 && p.metas.s >= 0 && p.metas.h >= 0) ==> r >= p.metas.t
  {
    p.metas.t + Min(p.actual.money / 1000, p.metas.d) + Min(p.actual.health, p.metas.s)
      + Min(p.actual.happy, p.metas.h)
  }

  /** Whether money, health, happiness or passive income differ. */
  predicate StatsChanged(a: Stats, b: Stats) {
    a.money != b.money || a.health != b.health || a.happy != b.happy || a.passive != b.passive
  }

  /** Some player's stats differ between a deep copy taken before and the
      players after. */
  predicate AnyStatsChanged(before: seq<Player>, after: seq<Player>)
    requires |before| <= |after|
  {
    exists k :: 0 <= k < |before| && StatsChanged(before[k].actual, after[k].actual)
  }

  // ---------------------------------------------------------------------
  // Helpers shared by several actions

  predicate ValidCurrent(s: GameState) {
    0 <= s.currentPlayerIndex < |s.players|
  }

  function CurrentPlayer(s: GameState): Player
    requires ValidCurrent(s)
  {
    s.players[s.currentPlayerIndex]
  }

  /** `(currentPlayerIndex + 1) % players.length` */
  function NextIndex(s: GameState): (k: int)
    requires ValidCurrent(s)
    ensures 0 <= k < |s.players|
    ensures k == if s.currentPlayerIndex + 1 == |s.players| then 0 else s.currentPlayerIndex + 1
  {
    (s.currentPlayerIndex + 1) % |s.players|
  }

  function TotalMoney(ps: seq<Player>): int {
    if ps == [] then 0 else ps[0].actual.money + TotalMoney(ps[1..])
  }

  lemma {:induction false} TotalMoneyUpdate(ps: seq<Player>, k: int, p: Player)
    requires 0 <= k < |ps|
    ensures TotalMoney(ps[k := p]) == TotalMoney(ps) - ps[k].actual.money + p.actual.money
  {
    if k > 0 {
      TotalMoneyUpdate(ps[1..], k - 1, p);
      assert ps[k := p][1..] == ps[1..][k - 1 := p];
    }
  }

  /** `routeCosts[r] || 3000`: a missing or zero fee falls back to 3000. */
  function RouteFee(costs: map<string, int>, r: string): (fee: int)
    ensures fee != 0
    ensures r in costs && costs[r] != 0 ==> fee == costs[r]
    ensures !(r in costs && costs[r] != 0) ==> fee == DefaultRouteFee
  {
    if r in costs && costs[r] != 0 then costs[r] else DefaultRouteFee
  }

  /** The entry cost of route `r` for player `p`: free once visited. */
  function RouteEntryCost(p: Player, costs: map<string, int>, r: string): (cost: int)
    ensures cost == 0 <==> r in p.visitedRoutes
    ensures r !in p.visitedRoutes ==> cost == RouteFee(costs, r)
  {
    if r in p.visitedRoutes then 0 else RouteFee(costs, r)
  }

  /** A tile's route id is truthy: present and not empty. */
  predicate HasRoute(t: Tile) {
    t.r.Some? && t.r.value != ""
  }

  function DrawCard(deck: seq<Card>, draw: nat): (card: Card)
    requires |deck| > 0
    ensures card in deck
  {
    deck[Pick(draw, |deck|)]
  }

  /** The indices of every player other than `cur`, in order. */
  function OtherIndices(from: int, n: int, cur: int): (r: seq<int>)
    requires 0 <= from
    decreases n - from
    ensures forall k :: 0 <= k < |r| ==> from <= r[k] < n && r[k] != cur
    ensures forall j :: from <= j < n && j != cur ==> j in r
    ensures forall a, b :: 0 <= a < b < |r| ==> r[a] < r[b]
    ensures 0 <= cur < n && from <= cur ==> |r| == n - from - 1
    ensures (cur < from || n <= cur) && from <= n ==> |r| == n - from
  {
    if from >= n then []
    else if from != cur then [from] + OtherIndices(from + 1, n, cur)
    else OtherIndices(from + 1, n, cur)
  }

  // Reward bundles of the cards the reducer builds itself.
  function MoneyReward(m: int): Rewards { NoRewards.(money := Some(m)) }

  function TaxCard(a: int): Card {
    Card("Pagas impuestos/multa.", Some(MoneyReward(-a)), "💸", Some("bg-red-100"), false)
  }

  function CommunityCard(total: int): Card {
    Card("¡Causa Común! Todos los demás jugadores donan al Pozo.",
         Some(NoRewards.(money := Some(0), pozoAdd := Some(total))), "🤲", None, false)
  }

  function PassiveCard(a: int): Card {
    Card("¡Felicidades! Tu ingreso pasivo aumenta permanentemente.",
         Some(NoRewards.(passive := Some(a))), "🏆", None, false)
  }

  function PotCard(pozo: int): Card {
    Card("¡Ganaste el Pozo!", Some(NoRewards.(money := Some(pozo), pozoReset := true)), "🍀", None, false)
  }

  const BankBirthdayCard := Card("¡Feliz Cumpleaños! Recibes un bono del banco.", Some(MoneyReward(1000)), "🎂", None, false)
  const PoemCard := Card("Recita un poema con pasión.", Some(NoRewards.(happy := Some(3))), "📜", None, true)
  const LuckyDayCard := Card("¡Día de Suerte!", Some(NoRewards.(happy := Some(1), health := Some(1))), "😊", None, false)
  const RelaxCard := Card("Momento de paz.", Some(NoRewards.(health := Some(1))), "😌", None, false)

  /** The accumulator the TILE_INFO birthday branch starts a gift chain with. */
  const ZeroGifts := NoRewards.(money := Some(0), health := Some(0), happy := Some(0))

  // ---------------------------------------------------------------------
  // Setup

  function SavePlayerStep(s: GameState, draft: PlayerDraft): (r: GameState)
    ensures r.players == s.players + [WithId(draft, s.setupPlayerIndex)]
    ensures s.setupPlayerIndex + 1 >= s.totalPlayers ==>
              r.gameStatus == Playing && r.setupPlayerIndex == 0 && r.showTurnOverlay
    ensures s.setupPlayerIndex + 1 < s.totalPlayers ==>
              r.gameStatus == s.gameStatus && r.setupPlayerIndex == s.setupPlayerIndex + 1
  {
    var players := s.players + [WithId(draft, s.setupPlayerIndex)];
    if s.setupPlayerIndex + 1 >= s.totalPlayers then
      s.(players := players, gameStatus := Playing, setupPlayerIndex := 0, showTurnOverlay := true)
    else
      s.(players := players, setupPlayerIndex := s.setupPlayerIndex + 1)
  }

  // ---------------------------------------------------------------------
  // Roll and move

  /** FINISH_ROLL: a player in a route moves `d1` route steps; anyone else
      moves `d1 + d2` tiles, and a zero move ends the turn at once. */
  function FinishRollStep(s: GameState, d1: int, d2: int): (r: GameState)
    requires ValidCurrent(s)
    ensures r.players == s.players
    ensures CurrentPlayer(s).inRoute ==>
              r.turnPhase == Moving && r.dice == [d1, d2] && !r.isRolling && r.isMovingInRoute
              && r.routeMoveDetails == Some(RouteMoveDetails(CurrentPlayer(s).rSteps, d1))
              && r.currentPlayerIndex == s.currentPlayerIndex
    ensures !CurrentPlayer(s).inRoute && d1 + d2 == 0 ==>
              r.turnPhase == TurnEnd && r.showTurnOverlay && r.currentPlayerIndex == NextIndex(s)
              && r.dice == s.dice && r.isRolling == s.isRolling
    ensures !CurrentPlayer(s).inRoute && d1 + d2 != 0 ==>
              r.turnPhase == Moving && r.dice == [d1, d2] && !r.isRolling && r.isMoving
              && r.moveDetails == Some(MoveDetails(CurrentPlayer(s).actual.pos, d1 + d2))
              && r.currentPlayerIndex == s.currentPlayerIndex
  {
    var moving := s.(isRolling := false, dice := [d1, d2], turnPhase := Moving);
    var p := CurrentPlayer(s);
    if p.inRoute then
      moving.(isMovingInRoute := true, routeMoveDetails := Some(RouteMoveDetails(p.rSteps, d1)))
    else if d1 + d2 == 0 then
      s.(turnPhase := TurnEnd, showTurnOverlay := true, currentPlayerIndex := NextIndex(s))
    else
      moving.(isMoving := true, moveDetails := Some(MoveDetails(p.actual.pos, d1 + d2)))
  }

  /** UPDATE_PLAYER_POSITION writes the current player's position. */
  function UpdatePositionStep(s: GameState, pos: int): (r: GameState)
    requires ValidCurrent(s)
    ensures |r.players| == |s.players| && r.currentPlayerIndex == s.currentPlayerIndex
    ensures CurrentPlayer(r).actual == CurrentPlayer(s).actual.(pos := pos)
    ensures CurrentPlayer(r).(actual := CurrentPlayer(s).actual) == CurrentPlayer(s)
    ensures forall k :: 0 <= k < |s.players| && k != s.currentPlayerIndex ==> r.players[k] == s.players[k]
    ensures r == s.(players := r.players)
  {
    var p := CurrentPlayer(s);
    s.(players := s.players[s.currentPlayerIndex := p.(actual := p.actual.(pos := pos))])
  }

  /** The lap bonus: the old passive income is paid out, passive income
      grows by 1000 and health grows by 2 plus the new lap count. */
  function LapBonus(p: Player): (q: Player)
    ensures q.laps == p.laps + 1
    ensures q.actual.money == p.actual.money + p.actual.passive
    ensures q.actual.passive == p.actual.passive + PassiveIncrement
    ensures q.actual.health == p.actual.health + 2 + q.laps
    ensures q.actual.pos == p.actual.pos && q.actual.happy == p.actual.happy
    ensures q.(laps := p.laps, actual := p.actual) == p
  {
    var laps := p.laps + 1;
    p.(laps := laps,
       actual := p.actual.(money := p.actual.money + p.actual.passive,
                           passive := p.actual.passive + PassiveIncrement,
                           health := p.actual.health + 2 + laps))
  }

  /** The "Todos Donan" fine: every player whose id differs from the
      lander's pays `min(money, a)`; the second component is the total. */
  function Donations(ps: seq<Player>, landerId: int, a: int): (r: (seq<Player>, int))
    ensures |r.0| == |ps|
    ensures forall k :: 0 <= k < |ps| && ps[k].id == landerId ==> r.0[k] == ps[k]
    ensures forall k :: 0 <= k < |ps| && ps[k].id != landerId ==>
              r.0[k] == ps[k].(actual := ps[k].actual.(money := ps[k].actual.money - Min(ps[k].actual.money, a)))
    ensures TotalMoney(r.0) + r.1 == TotalMoney(ps)
  {
    if ps == [] then ([], 0)
    else
      var rest := Donations(ps[1..], landerId, a);
      var pl := ps[0];
      if pl.id != landerId then
        var dn := Min(pl.actual.money, a);
        ([pl.(actual := pl.actual.(money := pl.actual.money - dn))] + rest.0, dn + rest.1)
      else
        ([pl] + rest.0, rest.1)
  }

  /** The "Todos Donan" landing as intended: the donors pay, and the
      community card adds the total to the pot once it is accepted. */
  function TodosDonan(players: seq<Player>, landerId: int, a: int): (r: (seq<Player>, Card))
    ensures r.0 == Donations(players, landerId, a).0
    ensures r.1.r == Some(NoRewards.(money := Some(0), pozoAdd := Some(Donations(players, landerId, a).1)))
    ensures TotalMoney(r.0) + SetValue(r.1.r.value.pozoAdd) == TotalMoney(players)
  {
    var d := Donations(players, landerId, a);
    (d.0, CommunityCard(d.1))
  }

  /** The "Todos Donan" landing as the source writes it: the donations are
      computed into a block-local copy that never reaches the returned
      players, while the card still carries their total. */
  function TodosDonanAsWritten(players: seq<Player>, landerId: int, a: int): (r: (seq<Player>, Card))
    ensures r.0 == players
    ensures r.1 == TodosDonan(players, landerId, a).1
  {
    (players, CommunityCard(Donations(players, landerId, a).1))
  }

  predicate IsTodosDonan(tile: Tile) {
    tile.t == Multa && tile.global && tile.n == "Todos Donan"
  }

  /** The players after landing on `tile`: only "Todos Donan" changes them,
      and only in the donors' stats. */
  function LandedPlayers(players: seq<Player>, cur: int, tile: Tile): (ps: seq<Player>)
    requires 0 <= cur < |players|
    ensures |ps| == |players| && ps[cur] == players[cur]
    ensures forall k :: 0 <= k < |players| ==> ps[k].(actual := players[k].actual) == players[k]
    ensures !IsTodosDonan(tile) ==> ps == players
  {
    if IsTodosDonan(tile) then Donations(players, players[cur].id, tile.a).0 else players
  }

  /** The gift chain a birthday starts: every other player, in order,
      gives to the current one.  None when nobody else plays. */
  function BirthdayChain(n: int, cur: int, acc: Rewards): (m: Option<ActiveModal>)
    requires 0 <= cur < n
    ensures n == 1 <==> m.None?
    ensures m.Some? ==>
              && m.value.GiftSelection? && m.value.receiverIndex == cur && m.value.accumulatedGifts == acc
              && [m.value.giverIndex] + m.value.pendingGiverIndices == OtherIndices(0, n, cur)
              && |m.value.pendingGiverIndices| == n - 2
  {
    var others := OtherIndices(0, n, cur);
    if |others| == 0 then None else Some(GiftSelection(others[0], cur, others[1..], acc))
  }

  /** The tiles whose landing only shows the tile: the phase stays at
      TILE_INFO until the player advances. */
  predicate ShowsInfo(tile: Tile) {
    || (tile.t == Multa && tile.global && tile.n != "Todos Donan")
    || (tile.t == Bonus && tile.n !in ["Ganaste", "Feliz Cumpleaños", "Recita un Poema", "Día de Suerte"])
    || (tile.t == Esquina && tile.n !in ["HOSPITAL", "VACACIONES", "SUERTE"])
  }

  /** The modal FINISH_MOVE opens on a bonus tile. */
  function BonusLandingModal(n: int, cur: int, tile: Tile): (m: ActiveModal)
    requires 0 <= cur < n && tile.t == Bonus
    ensures m.InfoTile? <==> ShowsInfo(tile)
    ensures m.InfoTile? ==> m.tile == tile
    ensures tile.n == "Feliz Cumpleaños" && n > 1 ==> Some(m) == BirthdayChain(n, cur, NoRewards)
    ensures tile.n == "Feliz Cumpleaños" && n == 1 ==> m == CardShown(BankBirthdayCard, "FELIZ CUMPLEAÑOS")
    ensures tile.n == "Ganaste" ==> m == CardShown(PassiveCard(tile.a), "GANASTE")
    ensures tile.n == "Recita un Poema" ==> m == CardShown(PoemCard, "POEMA")
    ensures tile.n == "Día de Suerte" ==> m == CardShown(LuckyDayCard, "SUERTE")
  {
    if tile.n == "Ganaste" then CardShown(PassiveCard(tile.a), "GANASTE")
    else if tile.n == "Feliz Cumpleaños" then
      var chain := BirthdayChain(n, cur, NoRewards);
      if chain.Some? then chain.value else CardShown(BankBirthdayCard, "FELIZ CUMPLEAÑOS")
    else if tile.n == "Recita un Poema" then CardShown(PoemCard, "POEMA")
    else if tile.n == "Día de Suerte" then CardShown(LuckyDayCard, "SUERTE")
    else InfoTile(tile)
  }

  /** The modal FINISH_MOVE opens on `tile`. */
  function LandingModal(c: Config, pozo: int, players: seq<Player>, cur: int, tile: Tile, draw: nat): (m: ActiveModal)
    requires ValidConfig(c) && 0 <= cur < |players|
    ensures m.InfoTile? <==> ShowsInfo(tile)
    ensures m.InfoTile? ==> m.tile == tile
    ensures tile.t == Carta ==>
              m.CardShown? && m.card in (if tile.c == Some(Reto) then c.mazoReto else c.mazoExpertis)
    ensures tile.t == Entrada ==> m == RouteChoice(tile)
    ensures tile.t == DadoEvento ==> m == DiceEvent(tile)
    ensures IsTodosDonan(tile) ==> m == CardShown(TodosDonan(players, players[cur].id, tile.a).1, "COMUNIDAD")
    ensures tile.t == Bonus && tile.n == "Feliz Cumpleaños" && |players| > 1 ==>
              Some(m) == BirthdayChain(|players|, cur, NoRewards)
    ensures tile.t == Bonus ==> m == BonusLandingModal(|players|, cur, tile)
    ensures tile.t == Multa && !tile.global ==> m == CardShown(TaxCard(tile.a), "IMPUESTOS")
    ensures tile.t == Relax ==> m == CardShown(RelaxCard, "RELAX")
    ensures tile.t == Esquina && (tile.n == "HOSPITAL" || tile.n == "VACACIONES") ==> m == Hospital(tile)
    ensures tile.t == Esquina && tile.n == "SUERTE" ==> m == CardShown(PotCard(pozo), "SUERTE")
  {
    match tile.t
    case Carta =>
      var reto := tile.c == Some(Reto);
      CardShown(DrawCard(if reto then c.mazoReto else c.mazoExpertis, draw),
                if reto then "RETO DIVERTIDO" else "MOMENTO EXPERTIS")
    case DadoEvento => DiceEvent(tile)
    case Multa =>
      if !tile.global then CardShown(TaxCard(tile.a), "IMPUESTOS")
      else if tile.n == "Todos Donan" then CardShown(TodosDonan(players, players[cur].id, tile.a).1, "COMUNIDAD")
      else InfoTile(tile)
    case Bonus => BonusLandingModal(|players|, cur, tile)
    case Relax => CardShown(RelaxCard, "RELAX")
    case Entrada => RouteChoice(tile)
    case Esquina =>
      if tile.n == "HOSPITAL" || tile.n == "VACACIONES" then Hospital(tile)
      else if tile.n == "SUERTE" then CardShown(PotCard(pozo), "SUERTE")
      else InfoTile(tile)
  }

  /** What landing on a tile produces at FINISH_MOVE. */
  datatype Landing = Landing(phase: TurnPhase, modal: Option<ActiveModal>, anim: Option<Animation>, players: seq<Player>)

  /** The tile-dispatch table of FINISH_MOVE.  `players` already holds the
      lander after any lap bonus. */
  function LandOn(s: GameState, c: Config, players: seq<Player>, tile: Tile, draw: nat): (l: Landing)
    requires ValidConfig(c) && ValidCurrent(s) && |players| == |s.players|
    ensures l.players == LandedPlayers(players, s.currentPlayerIndex, tile)
    ensures l.modal == Some(LandingModal(c, s.pozo, players, s.currentPlayerIndex, tile, draw))
    ensures l.phase == TileInfo <==> ShowsInfo(tile)
    ensures l.phase == TileInfo || l.phase == TileAction
    ensures tile.t == Carta ==> l.anim == Some(if tile.c == Some(Reto) then RetoAnim else ExpertiseAnim)
    ensures tile.t != Carta ==> l.anim == s.animationType
  {
    var m := LandingModal(c, s.pozo, players, s.currentPlayerIndex, tile, draw);
    Landing(if m.InfoTile? then TileInfo else TileAction, Some(m),
            if tile.t == Carta then Some(if tile.c == Some(Reto) then RetoAnim else ExpertiseAnim) else s.animationType,
            LandedPlayers(players, s.currentPlayerIndex, tile))
  }

  predicate FinishMovePre(s: GameState, c: Config) {
    ValidCurrent(s) && s.moveDetails.Some? && 0 <= CurrentPlayer(s).actual.pos < |c.mainBoard|
  }

  /** The lander after settling a move: the lap bonus applies exactly when
      the end position is below the start position. */
  function Settled(s: GameState): (p: Player)
    requires ValidCurrent(s) && s.moveDetails.Some?
    ensures CurrentPlayer(s).actual.pos < s.moveDetails.value.startPos ==> p == LapBonus(CurrentPlayer(s))
    ensures CurrentPlayer(s).actual.pos >= s.moveDetails.value.startPos ==> p == CurrentPlayer(s)
  {
    var p := CurrentPlayer(s);
    if p.actual.pos < s.moveDetails.value.startPos then LapBonus(p) else p
  }

  /** FINISH_MOVE: settle the move (lap bonus and banner) and dispatch on
      the landed tile. */
  function FinishMoveStep(s: GameState, c: Config, draw: nat): (r: GameState)
    requires ValidConfig(c) && FinishMovePre(s, c)
    ensures |r.players| == |s.players|
    ensures !r.isMoving && r.moveDetails == None
    ensures r.currentTile == Some(c.mainBoard[CurrentPlayer(s).actual.pos])
    ensures r.currentPlayerIndex == s.currentPlayerIndex && r.pozo == s.pozo
    ensures CurrentPlayer(r) == Settled(s)
    ensures forall k :: 0 <= k < |s.players| && k != s.currentPlayerIndex ==>
              r.players[k].(actual := s.players[k].actual) == s.players[k]
    ensures CurrentPlayer(s).actual.pos < s.moveDetails.value.startPos ==>
              r.passiveIncomeBanner == Some(Banner(true, CurrentPlayer(s).actual.passive,
                                                   2 + CurrentPlayer(s).laps + 1, CurrentPlayer(s).name,
                                                   CurrentPlayer(s).laps + 1))
    ensures CurrentPlayer(s).actual.pos >= s.moveDetails.value.startPos ==>
              r.passiveIncomeBanner == s.passiveIncomeBanner
    ensures var l := LandOn(s, c, s.players[s.currentPlayerIndex := Settled(s)],
                            c.mainBoard[CurrentPlayer(s).actual.pos], draw);
            r.turnPhase == l.phase && r.activeModal == l.modal && r.animationType == l.anim && r.players == l.players
  {
    var cur := s.currentPlayerIndex;
    var p0 := CurrentPlayer(s);
    var lapped := p0.actual.pos < s.moveDetails.value.startPos;
    var banner := if lapped then Some(Banner(true, p0.actual.passive, 2 + p0.laps + 1, p0.name, p0.laps + 1))
                  else s.passiveIncomeBanner;
    var players := s.players[cur := Settled(s)];
    var tile := c.mainBoard[p0.actual.pos];
    var l := LandOn(s, c, players, tile, draw);
    s.(players := l.players, passiveIncomeBanner := banner, isMoving := false, moveDetails := None,
       currentTile := Some(tile), turnPhase := l.phase, activeModal := l.modal, animationType := l.anim)
  }

  /** FINISH_MOVE as the source writes it: identical except that the
      "Todos Donan" donations never reach the returned players. */
  function FinishMoveAsWritten(s: GameState, c: Config, draw: nat): (r: GameState)
    requires ValidConfig(c) && FinishMovePre(s, c)
    ensures r.players == s.players[s.currentPlayerIndex := Settled(s)]
    ensures r.activeModal == FinishMoveStep(s, c, draw).activeModal
    ensures r == FinishMoveStep(s, c, draw).(players := r.players)
  {
    var r := FinishMoveStep(s, c, draw);
    r.(players := s.players[s.currentPlayerIndex := Settled(s)])
  }

  /** UPDATE_PLAYER_ROUTE_STEP writes the current player's route step. */
  function UpdateRouteStepStep(s: GameState, step: int): (r: GameState)
    requires ValidCurrent(s)
    ensures |r.players| == |s.players| && r.currentPlayerIndex == s.currentPlayerIndex
    ensures CurrentPlayer(r) == CurrentPlayer(s).(rSteps := step)
    ensures forall k :: 0 <= k < |s.players| && k != s.currentPlayerIndex ==> r.players[k] == s.players[k]
    ensures r == s.(players := r.players)
  {
    s.(players := s.players[s.currentPlayerIndex := CurrentPlayer(s).(rSteps := step)])
  }

  predicate FinishRouteMovePre(s: GameState, c: Config) {
    && ValidCurrent(s)
    && CurrentPlayer(s).rId.Some?
    && (CurrentPlayer(s).rSteps < c.routeLength ==> CurrentPlayer(s).rId.value in c.mazoRutas)
  }

  /** A graduate: the route's fee joins passive income and the route is
      recorded as visited, once. */
  function Graduated(p: Player, id: string, fee: int): (q: Player)
    ensures q.actual == p.actual.(passive := p.actual.passive + fee)
    ensures id in q.visitedRoutes
    ensures forall v :: v in q.visitedRoutes <==> v in p.visitedRoutes || v == id
    ensures id in p.visitedRoutes ==> q.visitedRoutes == p.visitedRoutes
    ensures q.(visitedRoutes := p.visitedRoutes, actual := p.actual) == p
  {
    var visited := if id in p.visitedRoutes then p.visitedRoutes else p.visitedRoutes + [id];
    p.(visitedRoutes := visited, actual := p.actual.(passive := p.actual.passive + fee))
  }

  /** FINISH_ROUTE_MOVE: at the end of the route the player graduates (the
      route fee is added to passive income, the route becomes visited and
      the graduation cue carries the overflow); otherwise a card is drawn
      from the route's deck. */
  function FinishRouteMoveStep(s: GameState, c: Config, overflow: int, draw: nat): (r: GameState)
    requires ValidConfig(c) && FinishRouteMovePre(s, c)
    ensures |r.players| == |s.players| && r.currentPlayerIndex == s.currentPlayerIndex
    ensures !r.isMovingInRoute && r.routeMoveDetails == None && r.pozo == s.pozo
    ensures forall k :: 0 <= k < |s.players| && k != s.currentPlayerIndex ==> r.players[k] == s.players[k]
    ensures CurrentPlayer(s).rSteps >= c.routeLength ==>
              && r.animationType == Some(Graduation) && r.overflowSteps == overflow && r.activeModal == None
              && r.turnPhase == s.turnPhase
              && CurrentPlayer(r) == Graduated(CurrentPlayer(s), CurrentPlayer(s).rId.value,
                                               RouteFee(c.routeCosts, CurrentPlayer(s).rId.value))
    ensures CurrentPlayer(s).rSteps < c.routeLength ==>
              && CurrentPlayer(r) == CurrentPlayer(s) && r.turnPhase == TileAction
              && r.activeModal.Some? && r.activeModal.value.CardShown?
              && r.activeModal.value.card in c.mazoRutas[CurrentPlayer(s).rId.value]
  {
    var base := s.(isMovingInRoute := false, routeMoveDetails := None);
    var cur := s.currentPlayerIndex;
    var p := CurrentPlayer(s);
    var id := p.rId.value;
    if p.rSteps >= c.routeLength then
      var bonus := RouteFee(c.routeCosts, id);
      var msg := if |c.routeCompletionMessages| == 0 then None
                 else Some(c.routeCompletionMessages[Pick(draw, |c.routeCompletionMessages|)]);
      base.(animationType := Some(Graduation), animationData := Some(GraduationData(bonus, msg)),
            overflowSteps := overflow, activeModal := None, players := s.players[cur := Graduated(p, id, bonus)])
    else
      var card := DrawCard(c.mazoRutas[id], draw);
      base.(activeModal := Some(CardShown(card, "Ruta " + id)), turnPhase := TileAction)
  }

  // ---------------------------------------------------------------------
  // The phase-advance action

  /** The end of a turn reached from TILE_INFO: the next player's overlay. */
  function EndTurn(s: GameState): (r: GameState)
    requires ValidCurrent(s)
    ensures r.turnPhase == TurnEnd && r.activeModal == None && r.showTurnOverlay
    ensures r.currentPlayerIndex == NextIndex(s) && r.passiveIncomeBanner == None
    ensures r.players == s.players && r.pozo == s.pozo
  {
    s.(activeModal := None, turnPhase := TurnEnd, showTurnOverlay := true,
       currentPlayerIndex := NextIndex(s), passiveIncomeBanner := None)
  }

  /** Who pays a fine charged at TILE_INFO advance, and how much in total:
      a global fine makes every player whose id differs from the lander's
      pay `min(money, a)`; a local one makes the lander pay it. */
  function FinePayments(ps: seq<Player>, cur: int, tile: Tile): (r: (seq<Player>, int))
    requires 0 <= cur < |ps|
    ensures |r.0| == |ps|
    ensures TotalMoney(r.0) + r.1 == TotalMoney(ps)
    ensures tile.global ==> r == Donations(ps, ps[cur].id, tile.a)
    ensures !tile.global ==>
              && r.0[cur] == ps[cur].(actual := ps[cur].actual.(money := ps[cur].actual.money - Min(ps[cur].actual.money, tile.a)))
              && (forall k :: 0 <= k < |ps| && k != cur ==> r.0[k] == ps[k])
              && r.1 == Min(ps[cur].actual.money, tile.a)
  {
    if tile.global then Donations(ps, ps[cur].id, tile.a)
    else
      var p := ps[cur];
      var amount := Min(p.actual.money, tile.a);
      var q := p.(actual := p.actual.(money := p.actual.money - amount));
      TotalMoneyUpdate(ps, cur, q);
      (ps[cur := q], amount)
  }

  /** A fine charged at TILE_INFO advance: the payments go to the pot, and
      the stat display is shown when some stats changed against a deep copy
      taken before. */
  function ChargeFine(s: GameState, tile: Tile): (r: GameState)
    requires ValidCurrent(s) && tile.t == Multa
    ensures r.currentPlayerIndex == s.currentPlayerIndex
    ensures r.players == FinePayments(s.players, s.currentPlayerIndex, tile).0
    ensures r.pozo == s.pozo + FinePayments(s.players, s.currentPlayerIndex, tile).1
    ensures TotalMoney(r.players) + r.pozo == TotalMoney(s.players) + s.pozo
    ensures r.turnPhase == StatUpdate && r.activeModal == None
    ensures r.isShowingStatChanges == AnyStatsChanged(s.players, r.players)
  {
    var f := FinePayments(s.players, s.currentPlayerIndex, tile);
    s.(players := f.0, pozo := s.pozo + f.1, activeModal := None, turnPhase := StatUpdate,
       isShowingStatChanges := AnyStatsChanged(s.players, f.0))
  }

  /** "Ganaste" at TILE_INFO: passive income grows by the tile amount at
      once, and the card shown carries the same passive bonus. */
  function GanasteStep(s: GameState, a: int): (r: GameState)
    requires ValidCurrent(s)
    ensures |r.players| == |s.players| && r.pozo == s.pozo && r.currentPlayerIndex == s.currentPlayerIndex
    ensures forall k :: 0 <= k < |s.players| && k != s.currentPlayerIndex ==> r.players[k] == s.players[k]
    ensures CurrentPlayer(r) == CurrentPlayer(s).(actual := CurrentPlayer(s).actual.(passive := CurrentPlayer(s).actual.passive + a))
    ensures r.activeModal == Some(CardShown(PassiveCard(a), "GANASTE")) && r.turnPhase == TileAction
  {
    var p := CurrentPlayer(s);
    s.(players := s.players[s.currentPlayerIndex := p.(actual := p.actual.(passive := p.actual.passive + a))],
       activeModal := Some(CardShown(PassiveCard(a), "GANASTE")), turnPhase := TileAction)
  }

  /** "Feliz Cumpleaños" at TILE_INFO: the gift chain starts, or the turn
      ends when nobody else plays. */
  function BirthdayStep(s: GameState): (r: GameState)
    requires ValidCurrent(s)
    ensures r.players == s.players && r.pozo == s.pozo
    ensures |s.players| == 1 ==> r == EndTurn(s)
    ensures |s.players| > 1 ==> r == s.(activeModal := BirthdayChain(|s.players|, s.currentPlayerIndex, ZeroGifts))
  {
    var chain := BirthdayChain(|s.players|, s.currentPlayerIndex, ZeroGifts);
    if chain.None? then EndTurn(s) else s.(activeModal := chain)
  }

  /** ADVANCE_TURN_PHASE at TILE_INFO on a bonus tile: "Ganaste" raises
      passive income at once and shows a card with the same bonus; a
      birthday starts the gift chain with the first other player. */
  function AdvanceOnBonus(s: GameState, tile: Tile): (r: GameState)
    requires ValidCurrent(s) && tile.t == Bonus
    ensures |r.players| == |s.players| && r.pozo == s.pozo
    ensures r.activeModal == None ==> r.turnPhase == TurnEnd && r.currentPlayerIndex == NextIndex(s)
    ensures r.activeModal != None ==> r.currentPlayerIndex == s.currentPlayerIndex
  {
    if tile.n == "Ganaste" then GanasteStep(s, tile.a)
    else if tile.n == "Feliz Cumpleaños" then BirthdayStep(s)
    else EndTurn(s)
  }

  /** ADVANCE_TURN_PHASE at TILE_INFO on a tile that is neither a fine nor
      a bonus. */
  function AdvanceOnTile(s: GameState, c: Config, tile: Tile, draw: nat): (r: GameState)
    requires ValidConfig(c) && ValidCurrent(s) && tile.t != Multa && tile.t != Bonus
    ensures r.players == s.players && r.pozo == s.pozo
    ensures r.activeModal == None ==> r == EndTurn(s)
    ensures r.activeModal != None ==> r.turnPhase == TileAction && r.currentPlayerIndex == s.currentPlayerIndex
  {
    match tile.t
    case Entrada => s.(activeModal := Some(RouteChoice(tile)), turnPhase := TileAction)
    case Carta =>
      var reto := tile.c == Some(Reto);
      var card := DrawCard(if reto then c.mazoReto else c.mazoExpertis, draw);
      s.(activeModal := Some(CardShown(card, if reto then "RETO DIVERTIDO" else "MOMENTO EXPERTIS")),
         turnPhase := TileAction, animationType := Some(if reto then RetoAnim else ExpertiseAnim))
    case DadoEvento => s.(activeModal := Some(DiceEvent(tile)), turnPhase := TileAction)
    case Esquina =>
      if tile.n == "HOSPITAL" || tile.n == "VACACIONES" then
        s.(activeModal := Some(Hospital(tile)), turnPhase := TileAction)
      else if tile.n == "SUERTE" then
        s.(activeModal := Some(CardShown(PotCard(s.pozo), "SUERTE")), turnPhase := TileAction)
      else EndTurn(s)
    case Relax => EndTurn(s)
  }

  /** ADVANCE_TURN_PHASE at TILE_INFO: the same tile table as FINISH_MOVE,
      with fines charged at once. */
  function AdvanceTileInfo(s: GameState, c: Config, draw: nat): (r: GameState)
    requires ValidConfig(c) && (s.currentTile.Some? ==> ValidCurrent(s))
    ensures |r.players| == |s.players|
    ensures s.currentTile.None? ==> r == s.(activeModal := None, turnPhase := TurnEnd)
    ensures s.currentTile.Some? && s.currentTile.value.t == Multa ==> r == ChargeFine(s, s.currentTile.value)
    ensures s.currentTile.Some? && s.currentTile.value.t == Bonus ==> r == AdvanceOnBonus(s, s.currentTile.value)
    ensures s.currentTile.Some? && s.currentTile.value.t !in {Multa, Bonus} ==>
              r == AdvanceOnTile(s, c, s.currentTile.value, draw)
  {
    if s.currentTile.None? then s.(activeModal := None, turnPhase := TurnEnd)
    else if s.currentTile.value.t == Multa then ChargeFine(s, s.currentTile.value)
    else if s.currentTile.value.t == Bonus then AdvanceOnBonus(s, s.currentTile.value)
    else AdvanceOnTile(s, c, s.currentTile.value, draw)
  }

  predicate AdvancePre(s: GameState) {
    match s.turnPhase
    case TileInfo => s.currentTile.Some? ==> ValidCurrent(s)
    case StatUpdate => ValidCurrent(s)
    case TurnEnd => ValidCurrent(s)
    case _ => true
  }

  /** ADVANCE_TURN_PHASE: TILE_INFO consults the tile table; STAT_UPDATE and
      TURN_END hand the turn to the next player; other phases are left. */
  function AdvanceTurnPhaseStep(s: GameState, c: Config, draw: nat): (r: GameState)
    requires ValidConfig(c) && AdvancePre(s)
    ensures |r.players| == |s.players|
    ensures s.turnPhase == StatUpdate || s.turnPhase == TurnEnd ==>
              r == s.(isShowingStatChanges := false, showTurnOverlay := true, currentPlayerIndex := NextIndex(s),
                      passiveIncomeBanner := None, turnPhase := Idle)
    ensures s.turnPhase !in {TileInfo, StatUpdate, TurnEnd} ==> r == s
  {
    match s.turnPhase
    case TileInfo => AdvanceTileInfo(s, c, draw)
    case StatUpdate =>
      s.(isShowingStatChanges := false, showTurnOverlay := true, currentPlayerIndex := NextIndex(s),
         passiveIncomeBanner := None, turnPhase := Idle)
    case TurnEnd =>
      s.(isShowingStatChanges := false, showTurnOverlay := true, currentPlayerIndex := NextIndex(s),
         passiveIncomeBanner := None, turnPhase := Idle)
    case _ => s
  }

  // ---------------------------------------------------------------------
  // Route entry and graduation

  /** Whether DECIDE_ROUTE lets the current player in. */
  predicate Enters(s: GameState, c: Config, enter: bool)
    requires ValidCurrent(s) && (enter ==> s.currentTile.Some?)
  {
    enter && HasRoute(s.currentTile.value)
    && CurrentPlayer(s).actual.money >= RouteEntryCost(CurrentPlayer(s), c.routeCosts, s.currentTile.value.r.value)
  }

  /** DECIDE_ROUTE: entry costs the route's fee (nothing once visited) and
      is allowed only when the player can pay it; the fee goes to the pot. */
  function DecideRouteStep(s: GameState, c: Config, enter: bool): (r: GameState)
    requires ValidCurrent(s) && (enter ==> s.currentTile.Some?)
    ensures |r.players| == |s.players| && r.currentPlayerIndex == s.currentPlayerIndex
    ensures forall k :: 0 <= k < |s.players| && k != s.currentPlayerIndex ==> r.players[k] == s.players[k]
    ensures TotalMoney(r.players) + r.pozo == TotalMoney(s.players) + s.pozo
    ensures r.activeModal == None
    ensures Enters(s, c, enter) ==>
              var p := CurrentPlayer(s); var id := s.currentTile.value.r.value;
              && CurrentPlayer(r) == p.(actual := p.actual.(money := p.actual.money - RouteEntryCost(p, c.routeCosts, id)),
                                        inRoute := true, rId := Some(id), rSteps := 1)
              && r.turnPhase == Idle && !r.isRolling
              && r.pozo == s.pozo + RouteEntryCost(p, c.routeCosts, id)
    ensures !Enters(s, c, enter) ==> CurrentPlayer(r) == CurrentPlayer(s) && r.pozo == s.pozo
    ensures !Enters(s, c, enter) && !CurrentPlayer(s).inRoute ==> r.turnPhase == StatUpdate && !r.isShowingStatChanges
    ensures !Enters(s, c, enter) && CurrentPlayer(s).inRoute ==> r.turnPhase == Idle && !r.isRolling
  {
    var cur := s.currentPlayerIndex;
    var p0 := CurrentPlayer(s);
    var entered := Enters(s, c, enter);
    var cost := if entered then RouteEntryCost(p0, c.routeCosts, s.currentTile.value.r.value) else 0;
    var p := if entered then p0.(actual := p0.actual.(money := p0.actual.money - cost), inRoute := true,
                                 rId := s.currentTile.value.r, rSteps := 1)
             else p0;
    var players := s.players[cur := p];
    TotalMoneyUpdate(s.players, cur, p);
    if !p.inRoute then
      // the stats snapshot shares `actual` with `p`, so no change is seen
      s.(players := players, pozo := s.pozo + cost, activeModal := None, turnPhase := StatUpdate,
         isShowingStatChanges := false)
    else
      s.(players := players, pozo := s.pozo + cost, activeModal := None, turnPhase := Idle, isRolling := false)
  }

  predicate EndAnimationPre(s: GameState) {
    s.animationType == Some(Graduation) ==> ValidCurrent(s)
  }

  /** END_ANIMATION: clears the cue; after graduation the player leaves the
      route, and leftover steps resume on the main board. */
  function EndAnimationStep(s: GameState): (r: GameState)
    requires EndAnimationPre(s)
    ensures |r.players| == |s.players| && r.currentPlayerIndex == s.currentPlayerIndex
    ensures r.animationType == None && r.animationData == None
    ensures s.animationType != Some(Graduation) ==> r.players == s.players && r.turnPhase == s.turnPhase
    ensures s.animationType == Some(Graduation) ==> r == LeaveRoute(s)
  {
    if s.animationType == Some(Graduation) then LeaveRoute(s)
    else s.(animationType := None, animationData := None)
  }

  /** The end of the graduation cue: the player leaves the route and any
      overflow steps become a main-board move from the route entrance. */
  function LeaveRoute(s: GameState): (r: GameState)
    requires ValidCurrent(s)
    ensures |r.players| == |s.players| && r.currentPlayerIndex == s.currentPlayerIndex
    ensures r.animationType == None && r.animationData == None
    ensures CurrentPlayer(r) == CurrentPlayer(s).(inRoute := false, rSteps := 0)
    ensures forall k :: 0 <= k < |s.players| && k != s.currentPlayerIndex ==> r.players[k] == s.players[k]
    ensures s.overflowSteps > 0 ==>
              r.isMoving && r.turnPhase == Moving && r.overflowSteps == 0
              && r.moveDetails == Some(MoveDetails(CurrentPlayer(s).actual.pos, s.overflowSteps))
    ensures s.overflowSteps <= 0 ==> r.turnPhase == TurnEnd && r.moveDetails == s.moveDetails
  {
    var p := CurrentPlayer(s).(inRoute := false, rSteps := 0);
    var left := s.(animationType := None, animationData := None, turnPhase := TurnEnd,
                   players := s.players[s.currentPlayerIndex := p]);
    if s.overflowSteps > 0 then
      left.(isMoving := true, moveDetails := Some(MoveDetails(p.actual.pos, s.overflowSteps)),
            turnPhase := Moving, overflowSteps := 0)
    else left
  }

  // ---------------------------------------------------------------------
  // Card, dice-event and hospital resolution

  /** A stat after a truthy delta, floored at zero. */
  function Bump(v: int, delta: Option<int>): (w: int)
    ensures IsSet(delta) ==> w == Max(0, v + delta.value)
    ensures !IsSet(delta) ==> w == v
  {
    if IsSet(delta) then Max(0, v + delta.value) else v
  }

  /** A card's rewards applied to stats: each present delta moves its stat
      and the result is floored at zero. */
  function ApplyCardRewards(a: Stats, r: Rewards): (b: Stats)
    ensures b.pos == a.pos
    ensures b.money == Bump(a.money, r.money) && b.health == Bump(a.health, r.health)
    ensures b.happy == Bump(a.happy, r.happy) && b.passive == Bump(a.passive, r.passive)
  {
    a.(money := Bump(a.money, r.money), health := Bump(a.health, r.health),
       happy := Bump(a.happy, r.happy), passive := Bump(a.passive, r.passive))
  }

  /** The pot after a card's rewards: `pozoAdd` first, then `pozoReset`. */
  function PotAfterCard(pozo: int, r: Rewards): (q: int)
    ensures r.pozoReset ==> q == 0
    ensures !r.pozoReset ==> q == pozo + SetValue(r.pozoAdd)
  {
    var added := pozo + SetValue(r.pozoAdd);
    if r.pozoReset then 0 else added
  }

  predicate ResolveCardPre(s: GameState, accepted: bool) {
    ValidCurrent(s) && s.activeModal.Some? && (accepted ==> s.activeModal.value.CardShown?)
  }

  /** Whether RESOLVE_CARD applies the shown card's rewards. */
  predicate AppliesCard(s: GameState, accepted: bool)
    requires s.activeModal.Some?
  {
    accepted && s.activeModal.value.CardShown? && s.activeModal.value.card.r.Some?
  }

  /** The current player after RESOLVE_CARD. */
  function CardResolvedPlayer(s: GameState, accepted: bool): (p: Player)
    requires ResolveCardPre(s, accepted)
    ensures AppliesCard(s, accepted) ==>
              p == CurrentPlayer(s).(actual := ApplyCardRewards(CurrentPlayer(s).actual, s.activeModal.value.card.r.value))
    ensures !AppliesCard(s, accepted) ==> p == CurrentPlayer(s)
  {
    var p0 := CurrentPlayer(s);
    if AppliesCard(s, accepted) then p0.(actual := ApplyCardRewards(p0.actual, s.activeModal.value.card.r.value)) else p0
  }

  /** RESOLVE_CARD: on acceptance the rewards apply; a success of 100 or
      more starts the celebration with the updated player as winner.
      In that branch the source returns the old state's fields, so the pot
      and the phase stay; the player copy shares its stats record with the
      old players, so the new stats do show in `players`. */
  function ResolveCardStep(s: GameState, accepted: bool): (r: GameState)
    requires ResolveCardPre(s, accepted)
    ensures |r.players| == |s.players| && r.currentPlayerIndex == s.currentPlayerIndex
    ensures r.activeModal == None
    ensures forall k :: 0 <= k < |s.players| && k != s.currentPlayerIndex ==> r.players[k] == s.players[k]
    ensures CurrentPlayer(r) == CardResolvedPlayer(s, accepted)
    ensures CalculateSuccess(CardResolvedPlayer(s, accepted)) >= 100 ==>
              r.gameStatus == Celebrating && r.winner == Some(CardResolvedPlayer(s, accepted))
              && r.pozo == s.pozo && r.turnPhase == s.turnPhase
    ensures CalculateSuccess(CardResolvedPlayer(s, accepted)) < 100 ==>
              && r.gameStatus == s.gameStatus && r.winner == s.winner
              && r.turnPhase == StatUpdate && !r.isShowingStatChanges
              && r.pozo == (if AppliesCard(s, accepted) then PotAfterCard(s.pozo, s.activeModal.value.card.r.value) else s.pozo)
  {
    var p := CardResolvedPlayer(s, accepted);
    var players := s.players[s.currentPlayerIndex := p];
    var pozo := if AppliesCard(s, accepted) then PotAfterCard(s.pozo, s.activeModal.value.card.r.value) else s.pozo;
    if CalculateSuccess(p) >= 100 then
      s.(gameStatus := Celebrating, winner := Some(p), activeModal := None, players := players)
    else
      // the stats snapshot shares `actual` with `p`, so no change is seen
      s.(players := players, pozo := pozo, activeModal := None, turnPhase := StatUpdate, isShowingStatChanges := false)
  }

  /** Dice-event rewards applied to stats, floored at zero; passive income
      is not touched. */
  function ApplyDiceRewards(a: Stats, r: Rewards): (b: Stats)
    ensures b == a.(money := Bump(a.money, r.money), health := Bump(a.health, r.health), happy := Bump(a.happy, r.happy))
    ensures b.passive == a.passive
  {
    a.(money := Bump(a.money, r.money), health := Bump(a.health, r.health), happy := Bump(a.happy, r.happy))
  }

  /** RESOLVE_DICE_EVENT: rewards apply to the current player and a money
      loss adds its full size to the pot, even when the money was floored. */
  function ResolveDiceEventStep(s: GameState, rw: Rewards): (r: GameState)
    requires ValidCurrent(s)
    ensures |r.players| == |s.players| && r.currentPlayerIndex == s.currentPlayerIndex
    ensures forall k :: 0 <= k < |s.players| && k != s.currentPlayerIndex ==> r.players[k] == s.players[k]
    ensures CurrentPlayer(r) == CurrentPlayer(s).(actual := ApplyDiceRewards(CurrentPlayer(s).actual, rw))
    ensures r.pozo == s.pozo + (if IsSet(rw.money) && rw.money.value < 0 then -rw.money.value else 0)
    ensures r.pozo >= s.pozo
    ensures r.turnPhase == StatUpdate && r.activeModal == None && !r.isShowingStatChanges
  {
    var p := CurrentPlayer(s);
    var loss := if IsSet(rw.money) && rw.money.value < 0 then -rw.money.value else 0;
    s.(players := s.players[s.currentPlayerIndex := p.(actual := ApplyDiceRewards(p.actual, rw))],
       pozo := s.pozo + loss, activeModal := None, turnPhase := StatUpdate, isShowingStatChanges := false)
  }

  /** RESOLVE_HOSPITAL: the cost is paid (money floored at zero) and goes
      to the pot in full; health and happiness grow unfloored. */
  function ResolveHospitalStep(s: GameState, cost: int, health: int, happy: int): (r: GameState)
    requires ValidCurrent(s)
    ensures |r.players| == |s.players| && r.currentPlayerIndex == s.currentPlayerIndex
    ensures forall k :: 0 <= k < |s.players| && k != s.currentPlayerIndex ==> r.players[k] == s.players[k]
    ensures var a := CurrentPlayer(s).actual;
            CurrentPlayer(r) == CurrentPlayer(s).(actual := a.(money := Max(0, a.money - cost),
                                                               health := a.health + health, happy := a.happy + happy))
    ensures r.pozo == s.pozo + cost
    ensures r.turnPhase == StatUpdate && r.activeModal == None && !r.isShowingStatChanges
  {
    var p := CurrentPlayer(s);
    var a := p.actual;
    var q := p.(actual := a.(money := Max(0, a.money - cost), health := a.health + health, happy := a.happy + happy));
    s.(players := s.players[s.currentPlayerIndex := q], pozo := s.pozo + cost, activeModal := None,
       turnPhase := StatUpdate, isShowingStatChanges := false)
  }

  // ---------------------------------------------------------------------
  // Early end

  /** `percentages.reduce((max, cur) => cur > max ? cur : max, first)` over
      the indices `k..` of `ps`, with `best` the index kept so far. */
  function ReduceBest(ps: seq<Player>, k: nat, best: nat): (b: nat)
    requires best < |ps| && k <= |ps|
    decreases |ps| - k
    ensures b < |ps|
  {
    if k == |ps| then best
    else ReduceBest(ps, k + 1, if CalculateSuccess(ps[k]) > CalculateSuccess(ps[best]) then k else best)
  }

  /** END_GAME_EARLY: the player with the highest success wins; on a tie,
      the earliest one (the reduce compares with a strict `>`). */
  function EndGameEarlyStep(s: GameState): (r: GameState)
    ensures |s.players| == 0 ==> r == s
    ensures |s.players| > 0 ==>
              r == s.(gameStatus := Celebrating, winner := Some(s.players[ReduceBest(s.players, 0, 0)]),
                      activeModal := None, showTurnOverlay := false)
  {
    if |s.players| == 0 then s
    else s.(gameStatus := Celebrating, winner := Some(s.players[ReduceBest(s.players, 0, 0)]),
            activeModal := None, showTurnOverlay := false)
  }

  // ---------------------------------------------------------------------
  // The gift chain

  predicate GiftPre(s: GameState) {
    && s.activeModal.Some? && s.activeModal.value.GiftSelection?
    && 0 <= s.activeModal.value.giverIndex < |s.players|
  }

  /** The giver after handing over a gift: each truthy field is deducted. */
  function Deduct(a: Stats, g: Rewards): (b: Stats)
    ensures b.money == a.money - SetValue(g.money)
    ensures b.health == a.health - SetValue(g.health)
    ensures b.happy == a.happy - SetValue(g.happy)
    ensures b.pos == a.pos && b.passive == a.passive
  {
    a.(money := a.money - SetValue(g.money), health := a.health - SetValue(g.health),
       happy := a.happy - SetValue(g.happy))
  }

  /** The accumulated gifts after one more: each truthy field is added. */
  function Accumulate(acc: Rewards, g: Rewards): (r: Rewards)
    ensures SetValue(r.money) == SetValue(acc.money) + SetValue(g.money)
    ensures SetValue(r.health) == SetValue(acc.health) + SetValue(g.health)
    ensures SetValue(r.happy) == SetValue(acc.happy) + SetValue(g.happy)
    ensures r.passive == acc.passive && r.pozoAdd == acc.pozoAdd && r.pozoReset == acc.pozoReset
  {
    acc.(money := if IsSet(g.money) then Some(SetValue(acc.money) + g.money.value) else acc.money,
         health := if IsSet(g.health) then Some(SetValue(acc.health) + g.health.value) else acc.health,
         happy := if IsSet(g.happy) then Some(SetValue(acc.happy) + g.happy.value) else acc.happy)
  }

  function BirthdaySummaryCard(total: Rewards): Card {
    Card("¡Recibiste regalos de tus amigos!", Some(total), "🎂", None, false)
  }

  /** RESOLVE_GIFT as intended: the giver pays, the gift is accumulated and
      the next giver is asked; after the last giver the total becomes a
      card whose acceptance credits the receiver, and the phase stays
      TILE_ACTION so that the card is answered before the turn moves on.
      The receiver itself is never touched here. */
  function ResolveGiftStep(s: GameState, gift: Rewards): (r: GameState)
    requires GiftPre(s)
    ensures |r.players| == |s.players| && r.currentPlayerIndex == s.currentPlayerIndex && r.pozo == s.pozo
    ensures var m := s.activeModal.value;
            && r.players == s.players[m.giverIndex := s.players[m.giverIndex].(actual := Deduct(s.players[m.giverIndex].actual, gift))]
            && (|m.pendingGiverIndices| > 0 ==>
                  r.activeModal == Some(GiftSelection(m.pendingGiverIndices[0], m.receiverIndex,
                                                      m.pendingGiverIndices[1..], Accumulate(m.accumulatedGifts, gift)))
                  && r.turnPhase == s.turnPhase)
            && (|m.pendingGiverIndices| == 0 ==>
                  r.activeModal == Some(CardShown(BirthdaySummaryCard(Accumulate(m.accumulatedGifts, gift)), "CUMPLEAÑOS"))
                  && r.turnPhase == TileAction && !r.isShowingStatChanges)
  {
    var m := s.activeModal.value;
    var giver := s.players[m.giverIndex];
    var players := s.players[m.giverIndex := giver.(actual := Deduct(giver.actual, gift))];
    var acc := Accumulate(m.accumulatedGifts, gift);
    if |m.pendingGiverIndices| > 0 then
      s.(players := players,
         activeModal := Some(GiftSelection(m.pendingGiverIndices[0], m.receiverIndex, m.pendingGiverIndices[1..], acc)))
    else
      // the card waits for its answer: STAT_UPDATE would hand the turn on
      s.(players := players, activeModal := Some(CardShown(BirthdaySummaryCard(acc), "CUMPLEAÑOS")),
         turnPhase := TileAction, isShowingStatChanges := false)
  }

  /** The receiver credited with the accumulated gifts, unfloored. */
  function Credit(a: Stats, acc: Rewards): (b: Stats)
    ensures b.money == a.money + SetValue(acc.money)
    ensures b.health == a.health + SetValue(acc.health)
    ensures b.happy == a.happy + SetValue(acc.happy)
    ensures b.pos == a.pos && b.passive == a.passive
  {
    a.(money := a.money + SetValue(acc.money), health := a.health + SetValue(acc.health),
       happy := a.happy + SetValue(acc.happy))
  }

  predicate GiftAsWrittenPre(s: GameState) {
    GiftPre(s) && 0 <= s.activeModal.value.receiverIndex < |s.players|
  }

  /** RESOLVE_GIFT as the source writes it: after the last giver the
      receiver is credited with the total at once, the summary card still
      carries the same total for RESOLVE_CARD to apply again, and the phase
      becomes STAT_UPDATE with stat changes on show, which the shell
      advances to the next player on its own. */
  function ResolveGiftAsWritten(s: GameState, gift: Rewards): (r: GameState)
    requires GiftAsWrittenPre(s)
    ensures var m := s.activeModal.value; var t := ResolveGiftStep(s, gift);
            && r.activeModal == t.activeModal
            && (|m.pendingGiverIndices| > 0 ==> r == t)
            && (|m.pendingGiverIndices| == 0 ==>
                  && r.players == t.players[m.receiverIndex :=
                       t.players[m.receiverIndex].(actual := Credit(t.players[m.receiverIndex].actual,
                                                                    Accumulate(m.accumulatedGifts, gift)))]
                  && r.turnPhase == StatUpdate && r.isShowingStatChanges
                  && r == t.(players := r.players, turnPhase := StatUpdate, isShowingStatChanges := true))
  {
    var m := s.activeModal.value;
    var t := ResolveGiftStep(s, gift);
    if |m.pendingGiverIndices| > 0 then t
    else
      var receiver := t.players[m.receiverIndex];
      t.(players := t.players[m.receiverIndex := receiver.(actual := Credit(receiver.actual, Accumulate(m.accumulatedGifts, gift)))],
         turnPhase := StatUpdate, isShowingStatChanges := true)
  }

  // ---------------------------------------------------------------------
  // Remote sync and saved games

  function Override<T>(f: Field<T>, local: T): T {
    if f.Present? then f.value else local
  }

  /** `Object.values` of an index-keyed object: the present slots in order. */
  function Compact(slots: seq<Option<Player>>): (r: seq<Player>)
    ensures |r| <= |slots|
    ensures forall p :: p in r <==> Some(p) in slots
    ensures (forall k :: 0 <= k < |slots| ==> slots[k].None?) ==> r == []
  {
    if slots == [] then []
    else
      assert forall p :: Some(p) in slots <==> Some(p) == slots[0] || Some(p) in slots[1..];
      (if slots[0].Some? then [slots[0].value] else []) + Compact(slots[1..])
  }

  /** One more slot appends its value, if present, after the others: the
      present values come out in slot order. */
  lemma {:induction false} CompactSnoc(slots: seq<Option<Player>>, x: Option<Player>)
    ensures Compact(slots + [x]) == Compact(slots) + (if x.Some? then [x.value] else [])
    decreases |slots|
  {
    if slots == [] {
      assert [] + [x] == [x];
    } else {
      assert (slots + [x])[1..] == slots[1..] + [x];
      CompactSnoc(slots[1..], x);
    }
  }

  function NormalizePlayers(f: PlayersField): seq<Player> {
    match f
    case PlayersList(ps) => ps
    case PlayersKeyed(slots) => Compact(slots)
    case PlayersMissing => []
  }

  function NormalizeDice(f: DiceField): (d: seq<int>)
    ensures f.DiceNotList? ==> d == [0, 0]
  {
    match f
    case DiceList(v) => v
    case DiceNotList => [0, 0]
  }

  /** `x || null` on an optional room id: the empty id is falsy. */
  function RoomOrNull(r: Option<string>): Option<string> {
    if r.Some? && r.value != "" then r else None
  }

  /** `x || null` on an optional player id: id 0 is falsy. */
  function IdOrNull(i: Option<int>): Option<int> {
    if i.Some? && i.value != 0 then i else None
  }

  /** SYNC_ONLINE_STATE: every field the snapshot carries overrides the
      local one; players and dice are normalised; the local room binding
      is kept and the state is marked as remote. */
  function SyncOnlineStateStep(s: GameState, remote: RemoteSnapshot): (r: GameState)
    ensures r.players == NormalizePlayers(remote.players) && r.dice == NormalizeDice(remote.dice)
    ensures r.roomId == RoomOrNull(s.roomId) && r.isHost == s.isHost
    ensures r.localPlayerId == IdOrNull(s.localPlayerId) && r.lastSource == Remote
    ensures r.gameStatus == Override(remote.gameStatus, s.gameStatus)
    ensures r.turnPhase == Override(remote.turnPhase, s.turnPhase)
    ensures r.currentPlayerIndex == Override(remote.currentPlayerIndex, s.currentPlayerIndex)
    ensures r.activeModal == Override(remote.activeModal, s.activeModal)
    ensures r.pozo == Override(remote.pozo, s.pozo)
    ensures r.totalPlayers == Override(remote.totalPlayers, s.totalPlayers)
    ensures r.setupPlayerIndex == Override(remote.setupPlayerIndex, s.setupPlayerIndex)
    ensures r.currentTile == Override(remote.currentTile, s.currentTile)
    ensures r.showTurnOverlay == Override(remote.showTurnOverlay, s.showTurnOverlay)
    ensures r.winner == Override(remote.winner, s.winner)
    ensures r.isRolling == Override(remote.isRolling, s.isRolling)
    ensures r.passiveIncomeBanner == Override(remote.passiveIncomeBanner, s.passiveIncomeBanner)
    ensures r.isMoving == Override(remote.isMoving, s.isMoving)
    ensures r.moveDetails == Override(remote.moveDetails, s.moveDetails)
    ensures r.isMovingInRoute == Override(remote.isMovingInRoute, s.isMovingInRoute)
    ensures r.routeMoveDetails == Override(remote.routeMoveDetails, s.routeMoveDetails)
    ensures r.isShowingStatChanges == Override(remote.isShowingStatChanges, s.isShowingStatChanges)
    ensures r.animationType == Override(remote.animationType, s.animationType)
    ensures r.animationData == Override(remote.animationData, s.animationData)
    ensures r.overflowSteps == Override(remote.overflowSteps, s.overflowSteps)
  {
    GameState(
      Override(remote.gameStatus, s.gameStatus),
      Override(remote.totalPlayers, s.totalPlayers),
      Override(remote.setupPlayerIndex, s.setupPlayerIndex),
      NormalizePlayers(remote.players),
      Override(remote.currentPlayerIndex, s.currentPlayerIndex),
      Override(remote.pozo, s.pozo),
      Override(remote.activeModal, s.activeModal),
      Override(remote.currentTile, s.currentTile),
      Override(remote.showTurnOverlay, s.showTurnOverlay),
      Override(remote.winner, s.winner),
      NormalizeDice(remote.dice),
      Override(remote.isRolling, s.isRolling),
      Override(remote.passiveIncomeBanner, s.passiveIncomeBanner),
      Override(remote.isMoving, s.isMoving),
      Override(remote.moveDetails, s.moveDetails),
      Override(remote.isMovingInRoute, s.isMovingInRoute),
      Override(remote.routeMoveDetails, s.routeMoveDetails),
      Override(remote.isShowingStatChanges, s.isShowingStatChanges),
      Override(remote.turnPhase, s.turnPhase),
      Override(remote.animationType, s.animationType),
      Override(remote.animationData, s.animationData),
      Override(remote.overflowSteps, s.overflowSteps),
      RoomOrNull(s.roomId),
      s.isHost,
      IdOrNull(s.localPlayerId),
      Remote)
  }

  /** LOAD_SAVED_GAME: the saved state, with the transient movement and
      animation flags cleared. */
  function LoadSavedGameStep(saved: GameState): (r: GameState)
    ensures !r.isRolling && !r.isMoving && !r.isMovingInRoute && r.animationType == None
    ensures r.(isRolling := saved.isRolling, isMoving := saved.isMoving, isMovingInRoute := saved.isMovingInRoute,
               animationType := saved.animationType) == saved
  {
    saved.(isRolling := false, isMoving := false, isMovingInRoute := false, animationType := None)
  }

  // ---------------------------------------------------------------------
  // Dispatch

  predicate ReducePre(s: GameState, a: Action, c: Config) {
    match a
    case FinishRoll(_, _) => ValidCurrent(s)
    case UpdatePlayerPosition(_) => ValidCurrent(s)
    case FinishMoveAction => FinishMovePre(s, c)
    case UpdatePlayerRouteStep(_) => ValidCurrent(s)
    case FinishRouteMove(_) => FinishRouteMovePre(s, c)
    case AdvanceTurnPhase => AdvancePre(s)
    case DecideRoute(e) => ValidCurrent(s) && (e ==> s.currentTile.Some?)
    case EndAnimation => EndAnimationPre(s)
    case ResolveCard(acc) => ResolveCardPre(s, acc)
    case ResolveDiceEvent(_) => ValidCurrent(s)
    case ResolveHospital(_, _, _) => ValidCurrent(s)
    case ResolveGift(_) => GiftAsWrittenPre(s)
    case _ => true
  }

  /** The reducer as the source writes it: one transition per action, with
      FINISH_MOVE and RESOLVE_GIFT as written. */
  function Reduce(s: GameState, a: Action, c: Config, draw: nat): (r: GameState)
    requires ValidConfig(c) && ReducePre(s, a, c)
    ensures a.StartGame? || a.ShowTurnOverlay? ==> r == s
    ensures a.ResetGame? ==> r == InitialState
  {
    match a
    case ResetGame => InitialState
    case ShowStartScreen => s.(gameStatus := Start)
    case StartSetup(n) => InitialState.(gameStatus := Setup, totalPlayers := n)
    case SavePlayer(d) => SavePlayerStep(s, d)
    case StartGame => s
    case ShowTurnOverlay => s
    case StartTurn => s.(showTurnOverlay := false, turnPhase := Idle)
    case RollDice => s.(isRolling := true, dice := [0, 0], turnPhase := Rolling)
    case FinishRoll(d1, d2) => FinishRollStep(s, d1, d2)
    case UpdatePlayerPosition(pos) => UpdatePositionStep(s, pos)
    case FinishMoveAction => FinishMoveAsWritten(s, c, draw)
    case UpdatePlayerRouteStep(step) => UpdateRouteStepStep(s, step)
    case FinishRouteMove(overflow) => FinishRouteMoveStep(s, c, overflow, draw)
    case AdvanceTurnPhase => AdvanceTurnPhaseStep(s, c, draw)
    case DecideRoute(e) => DecideRouteStep(s, c, e)
    case EndAnimation => EndAnimationStep(s)
    case ResolveCard(acc) => ResolveCardStep(s, acc)
    case ResolveDiceEvent(rw) => ResolveDiceEventStep(s, rw)
    case ResolveHospital(cost, h, hp) => ResolveHospitalStep(s, cost, h, hp)
    case EndGameEarly => EndGameEarlyStep(s)
    case ResolveGift(g) => ResolveGiftAsWritten(s, g)
    case HidePassiveIncomeBanner => s.(passiveIncomeBanner := None)
    case FinishWinAnimation => s.(gameStatus := Win)
    case ShowLobby => s.(gameStatus := Lobby)
    case SetRoomId(id, host) => s.(roomId := Some(id), isHost := host, gameStatus := Setup)
    case SyncOnlineState(remote) => SyncOnlineStateStep(s, remote)
    case LoadSavedGame(saved) => LoadSavedGameStep(saved)
  }

  // Each action's transition, one lemma per action with a named step.

  lemma ReduceSavePlayer(s: GameState, d: PlayerDraft, c: Config, draw: nat)
    requires ValidConfig(c)
    ensures Reduce(s, SavePlayer(d), c, draw) == SavePlayerStep(s, d)
  {
  }

  lemma ReduceFinishRoll(s: GameState, d1: int, d2: int, c: Config, draw: nat)
    requires ValidConfig(c) && ValidCurrent(s)
    ensures Reduce(s, FinishRoll(d1, d2), c, draw) == FinishRollStep(s, d1, d2)
  {
  }

  lemma ReduceUpdatePosition(s: GameState, pos: int, c: Config, draw: nat)
    requires ValidConfig(c) && ValidCurrent(s)
    ensures Reduce(s, UpdatePlayerPosition(pos), c, draw) == UpdatePositionStep(s, pos)
  {
  }

  lemma ReduceFinishMove(s: GameState, c: Config, draw: nat)
    requires ValidConfig(c) && FinishMovePre(s, c)
    ensures Reduce(s, FinishMoveAction, c, draw) == FinishMoveAsWritten(s, c, draw)
  {
  }

  lemma ReduceUpdateRouteStep(s: GameState, step: int, c: Config, draw: nat)
    requires ValidConfig(c) && ValidCurrent(s)
    ensures Reduce(s, UpdatePlayerRouteStep(step), c, draw) == UpdateRouteStepStep(s, step)
  {
  }

  lemma ReduceFinishRouteMove(s: GameState, overflow: int, c: Config, draw: nat)
    requires ValidConfig(c) && FinishRouteMovePre(s, c)
    ensures Reduce(s, FinishRouteMove(overflow), c, draw) == FinishRouteMoveStep(s, c, overflow, draw)
  {
  }

  lemma ReduceAdvance(s: GameState, c: Config, draw: nat)
    requires ValidConfig(c) && AdvancePre(s)
    ensures Reduce(s, AdvanceTurnPhase, c, draw) == AdvanceTurnPhaseStep(s, c, draw)
  {
  }

  lemma ReduceDecideRoute(s: GameState, enter: bool, c: Config, draw: nat)
    requires ValidConfig(c) && ValidCurrent(s) && (enter ==> s.currentTile.Some?)
    ensures Reduce(s, DecideRoute(enter), c, draw) == DecideRouteStep(s, c, enter)
  {
  }

  lemma ReduceEndAnimation(s: GameState, c: Config, draw: nat)
    requires ValidConfig(c) && EndAnimationPre(s)
    ensures Reduce(s, EndAnimation, c, draw) == EndAnimationStep(s)
  {
  }

  lemma ReduceResolveCard(s: GameState, accepted: bool, c: Config, draw: nat)
    requires ValidConfig(c) && ResolveCardPre(s, accepted)
    ensures Reduce(s, ResolveCard(accepted), c, draw) == ResolveCardStep(s, accepted)
  {
  }

  lemma ReduceResolveDiceEvent(s: GameState, rw: Rewards, c: Config, draw: nat)
    requires ValidConfig(c) && ValidCurrent(s)
    ensures Reduce(s, ResolveDiceEvent(rw), c, draw) == ResolveDiceEventStep(s, rw)
  {
  }

  lemma ReduceResolveHospital(s: GameState, cost: int, health: int, happy: int, c: Config, draw: nat)
    requires ValidConfig(c) && ValidCurrent(s)
    ensures Reduce(s, ResolveHospital(cost, health, happy), c, draw) == ResolveHospitalStep(s, cost, health, happy)
  {
  }

  lemma ReduceEndGameEarly(s: GameState, c: Config, draw: nat)
    requires ValidConfig(c)
    ensures Reduce(s, EndGameEarly, c, draw) == EndGameEarlyStep(s)
  {
  }

  lemma ReduceResolveGift(s: GameState, g: Rewards, c: Config, draw: nat)
    requires ValidConfig(c) && GiftAsWrittenPre(s)
    ensures Reduce(s, ResolveGift(g), c, draw) == ResolveGiftAsWritten(s, g)
  {
  }

  lemma ReduceSync(s: GameState, remote: RemoteSnapshot, c: Config, draw: nat)
    requires ValidConfig(c)
    ensures Reduce(s, SyncOnlineState(remote), c, draw) == SyncOnlineStateStep(s, remote)
  {
  }

  lemma ReduceSetRoom(s: GameState, id: string, host: bool, c: Config, draw: nat)
    requires ValidConfig(c)
    ensures Reduce(s, SetRoomId(id, host), c, draw) == s.(roomId := Some(id), isHost := host, gameStatus := Setup)
  {
  }

  lemma ReduceLoadSavedGame(s: GameState, saved: GameState, c: Config, draw: nat)
    requires ValidConfig(c)
    ensures Reduce(s, LoadSavedGame(saved), c, draw) == LoadSavedGameStep(saved)
  {
  }

  /** The reducer with the corrected FINISH_MOVE and RESOLVE_GIFT; every
      other action is the reducer's own. */
  function ReduceCorrected(s: GameState, a: Action, c: Config, draw: nat): (r: GameState)
    requires ValidConfig(c) && ReducePre(s, a, c)
    ensures !a.FinishMoveAction? && !a.ResolveGift? ==> r == Reduce(s, a, c, draw)
    ensures a.FinishMoveAction? ==> r == FinishMoveStep(s, c, draw)
    ensures a.FinishMoveAction? ==> Reduce(s, a, c, draw) == r.(players := Reduce(s, a, c, draw).players)
    ensures a.ResolveGift? ==> r == ResolveGiftStep(s, a.gift)
    ensures a.ResolveGift? ==> Reduce(s, a, c, draw).activeModal == r.activeModal
  {
    match a
    case FinishMoveAction => ReduceFinishMove(s, c, draw); FinishMoveStep(s, c, draw)
    case ResolveGift(g) => ReduceResolveGift(s, g, c, draw); ResolveGiftStep(s, g)
    case _ => Reduce(s, a, c, draw)
  }
}
