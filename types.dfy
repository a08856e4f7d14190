/** The game's data model: players, tiles, cards, the active interaction
    (modal), the turn phase and the whole game state, as values. */
module GameTypes {

  datatype Option<T> = None | Some(value: T)

  /** A player's targets, fixed at creation: time points and the money
      (in thousands), health and happiness goals. */
  datatype Metas = Metas(t: int, d: int, s: int, h: int)

  /** A player's current stats and board position. */
  datatype Stats = Stats(pos: int, money: int, health: int, happy: int, passive: int)

  datatype Player = Player(
    id: int,
    name: string,
    color: string,
    icon: string,
    metas: Metas,
    actual: Stats,
    inRoute: bool,
    rId: Option<string>,
    rSteps: int,
    visitedRoutes: seq<string>,
    laps: int)

  /** The player record the setup screen hands to SAVE_PLAYER: a player
      without its id. */
  datatype PlayerDraft = PlayerDraft(
    name: string,
    color: string,
    icon: string,
    metas: Metas,
    actual: Stats,
    inRoute: bool,
    rId: Option<string>,
    rSteps: int,
    visitedRoutes: seq<string>,
    laps: int)

  function WithId(d: PlayerDraft, id: int): Player {
    Player(id, d.name, d.color, d.icon, d.metas, d.actual, d.inRoute, d.rId, d.rSteps, d.visitedRoutes, d.laps)
  }

  datatype TileKind = Esquina | Entrada | Carta | DadoEvento | Multa | Bonus | Relax

  datatype CardKind = Reto | Expertis

  /** A board tile.  The amount `a` is only ever read (as `a!`) on fine
      tiles and on the "Ganaste" bonus tile, so it is an `int` here. */
  datatype Tile = Tile(
    n: string,
    t: TileKind,
    d: string,
    r: Option<string>,
    c: Option<CardKind>,
    a: int,
    global: bool,
    i: Option<string>)

  /** Reward deltas.  An absent field and a zero field are both skipped by
      every consumer (they test the field for truthiness). */
  datatype Rewards = Rewards(
    money: Option<int>,
    health: Option<int>,
    happy: Option<int>,
    passive: Option<int>,
    pozoReset: bool,
    pozoAdd: Option<int>,
    globalDonate: Option<int>)

  const NoRewards := Rewards(None, None, None, None, false, None, None)

  /** JavaScript truthiness of an optional number: present and non-zero. */
  predicate IsSet(o: Option<int>) {
    o.Some? && o.value != 0
  }

  /** The value a truthy optional number contributes, 0 otherwise. */
  function SetValue(o: Option<int>): (v: int)
    ensures v != 0 <==> IsSet(o)
  {
    if IsSet(o) then o.value else 0
  }

  datatype Card = Card(
    t: string,
    r: Option<Rewards>,
    i: string,
    c: Option<string>,
    requiresJudgment: bool)

  /** The active interaction, one variant per modal type, each with the
      payload the reducer stores for it. */
  datatype ActiveModal =
    | InfoTile(tile: Tile)
    | RouteChoice(tile: Tile)
    | CardShown(card: Card, category: string)
    | DiceEvent(tile: Tile)
    | Hospital(tile: Tile)
    | GiftSelection(giverIndex: int, receiverIndex: int, pendingGiverIndices: seq<int>, accumulatedGifts: Rewards)

  datatype TurnPhase = Idle | Rolling | Moving | TileInfo | TileAction | StatUpdate | TurnEnd

  datatype GameStatus = Intro | Start | Setup | Playing | Celebrating | Win | Lobby

  datatype Banner = Banner(visible: bool, amount: int, healthGain: int, playerName: string, lap: int)

  datatype MoveDetails = MoveDetails(startPos: int, steps: int)

  datatype RouteMoveDetails = RouteMoveDetails(startStep: int, steps: int)

  /** The animation cues the reducer sets. */
  datatype Animation = RetoAnim | ExpertiseAnim | Graduation

  datatype AnimationData = GraduationData(bonus: int, message: Option<string>)

  datatype Source = Local | Remote

  /** The whole game state.  `overflowSteps` is 0 where the source leaves
      it undefined: every reader treats the two alike. */
  datatype GameState = GameState(
    gameStatus: GameStatus,
    totalPlayers: int,
    setupPlayerIndex: int,
    players: seq<Player>,
    currentPlayerIndex: int,
    pozo: int,
    activeModal: Option<ActiveModal>,
    currentTile: Option<Tile>,
    showTurnOverlay: bool,
    winner: Option<Player>,
    dice: seq<int>,
    isRolling: bool,
    passiveIncomeBanner: Option<Banner>,
    isMoving: bool,
    moveDetails: Option<MoveDetails>,
    isMovingInRoute: bool,
    routeMoveDetails: Option<RouteMoveDetails>,
    isShowingStatChanges: bool,
    turnPhase: TurnPhase,
    animationType: Option<Animation>,
    animationData: Option<AnimationData>,
    overflowSteps: int,
    roomId: Option<string>,
    isHost: bool,
    localPlayerId: Option<int>,
    lastSource: Source)

  /** The constants module: the main board, the decks, the route fees, the
      route length and the graduation messages. */
  datatype Config = Config(
    mainBoard: seq<Tile>,
    mazoReto: seq<Card>,
    mazoExpertis: seq<Card>,
    mazoRutas: map<string, seq<Card>>,
    routeCosts: map<string, int>,
    routeLength: int,
    routeCompletionMessages: seq<string>)

  /** What the game's constants satisfy: a board longer than 12 tiles, a
      route of at least one step and non-empty decks. */
  predicate ValidConfig(c: Config) {
    && |c.mainBoard| > 12
    && c.routeLength >= 1
    && |c.mazoReto| > 0
    && |c.mazoExpertis| > 0
    && (forall r :: r in c.mazoRutas ==> |c.mazoRutas[r]| > 0)
  }

  /** A random index into a collection of `len` elements, as
      `Math.floor(Math.random() * len)` produces it; `draw` is the oracle. */
  function Pick(draw: nat, len: nat): (k: nat)
    requires len > 0
    ensures k < len
  {
    draw % len
  }

  /** A die roll `Math.floor(Math.random() * 6) + 1`, from the oracle `draw`. */
  function RollDie(draw: nat): (d: int)
    ensures 1 <= d <= 6
  {
    draw % 6 + 1
  }

  function Max(a: int, b: int): int { if a >= b then a else b }
  function Min(a: int, b: int): int { if a <= b then a else b }
}
