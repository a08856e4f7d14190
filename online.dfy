/** The application shell: the online session (subscribe, publish with
    echo suppression, create and join), the automatic advance out of
    STAT_UPDATE and the map from the active modal to the action its
    answer dispatches. */
module Online {
  import opened GameTypes
  import opened GameReducer
  import opened GameReducerProperties

  /** `if (roomId)`: a room id that is present and not empty. */
  predicate InRoom(s: GameState) {
    s.roomId.Some? && s.roomId.value != ""
  }

  /** Whether the publish effect sends `s`, given the last inbound snapshot
      as received (`last`) and `s` serialized (`serialized`). */
  function Publishes(s: GameState, last: Option<string>, serialized: string): (b: bool)
    ensures b ==> InRoom(s)
    ensures b ==> s.isHost || s.gameStatus == Setup
    ensures last == Some(serialized) ==> !b
    ensures InRoom(s) && (s.isHost || s.gameStatus == Setup) && last != Some(serialized) ==> b
  {
    InRoom(s) && (s.isHost || s.gameStatus == Setup) && last != Some(serialized)
  }

  /** The state the STAT_UPDATE effect leaves: ADVANCE_TURN_PHASE when in
      STAT_UPDATE, nothing otherwise.  The effect does not look at the
      active modal, so an open card stays open. */
  function AfterStatUpdate(s: GameState, c: Config, draw: nat): (r: GameState)
    requires ValidConfig(c) && (s.turnPhase == StatUpdate ==> ValidCurrent(s))
    ensures s.turnPhase != StatUpdate ==> r == s
    ensures s.turnPhase == StatUpdate ==>
              && r.turnPhase == Idle && r.currentPlayerIndex == NextIndex(s)
              && r.activeModal == s.activeModal && r.players == s.players
  {
    if s.turnPhase == StatUpdate then AdvanceTurnPhaseStep(s, c, draw) else s
  }

  /** The shell around the reducer: the state, the last inbound snapshot
      as a string (`lastRemoteState`), and the states sent to the room. */
  class Session {
    var state: GameState
    var lastRemote: Option<string>
    var published: seq<GameState>
    const config: Config
    /** `JSON.stringify` of a local state, left abstract. */
    const encode: GameState -> string

    constructor(config: Config, encode: GameState -> string)
      ensures state == InitialState && lastRemote == None && published == []
      ensures this.config == config && this.encode == encode
    {
      state := InitialState;
      lastRemote := None;
      published := [];
      this.config := config;
      this.encode := encode;
    }

    /** `dispatch`: the reducer applied to the state. */
    method Dispatch(a: Action, draw: nat)
      requires ValidConfig(config) && ReducePre(state, a, config)
      modifies this
      ensures state == Reduce(old(state), a, config, draw)
      ensures lastRemote == old(lastRemote) && published == old(published)
    {
      state := Reduce(state, a, config, draw);
    }

    /** The room subscription's callback: the snapshot is stored serialized
        before SYNC_ONLINE_STATE is dispatched with it. */
    method OnSnapshot(remote: RemoteSnapshot, serialized: string)
      requires ValidConfig(config)
      modifies this
      ensures lastRemote == Some(serialized)
      ensures state == SyncOnlineStateStep(old(state), remote)
      ensures published == old(published)
    {
      lastRemote := Some(serialized);
      ReduceSync(state, remote, config, 0);
      Dispatch(SyncOnlineState(remote), 0);
    }

    /** The publish effect, run after every state change: the state is sent
        when in a room as host or during setup, unless it serializes to
        the snapshot last received. */
    method PublishEffect()
      modifies this
      ensures published == old(published) + (if Publishes(state, lastRemote, encode(state)) then [state] else [])
      ensures state == old(state) && lastRemote == old(lastRemote)
    {
      if InRoom(state) {
        var isSetup := state.gameStatus == Setup;
        if state.isHost || isSetup {
          var current := encode(state);
          if Some(current) != lastRemote {
            published := published + [state];
          }
        }
      }
    }

    /** The STAT_UPDATE effect: ADVANCE_TURN_PHASE follows at once, or after
        the delay when stat changes are on show (`delayed`); either way the
        turn passes to the next player and the phase leaves STAT_UPDATE. */
    method StatUpdateEffect(draw: nat) returns (delayed: bool)
      requires ValidConfig(config) && (state.turnPhase == StatUpdate ==> ValidCurrent(state))
      modifies this
      ensures old(state).turnPhase == StatUpdate ==>
                && delayed == old(state).isShowingStatChanges
                && state == Reduce(old(state), AdvanceTurnPhase, config, draw)
                && state.turnPhase == Idle && state.showTurnOverlay && !state.isShowingStatChanges
                && state.currentPlayerIndex == NextIndex(old(state))
      ensures old(state).turnPhase != StatUpdate ==> state == old(state) && !delayed
      ensures state == AfterStatUpdate(old(state), config, draw)
      ensures lastRemote == old(lastRemote) && published == old(published)
    {
      delayed := false;
      if state.turnPhase == StatUpdate {
        delayed := state.isShowingStatChanges;
        Dispatch(AdvanceTurnPhase, draw);
      }
    }

    /** Joining a room: SET_ROOM_ID as a guest, then SYNC_ONLINE_STATE with
        the room's state; a guest publishes only during setup. */
    method JoinRoom(id: string, remote: RemoteSnapshot)
      requires ValidConfig(config)
      modifies this
      ensures state == SyncOnlineStateStep(old(state).(roomId := Some(id), isHost := false, gameStatus := Setup), remote)
      ensures !state.isHost && state.roomId == RoomOrNull(Some(id))
      ensures forall last, str :: Publishes(state, last, str) ==> state.gameStatus == Setup
      ensures lastRemote == old(lastRemote) && published == old(published)
    {
      ReduceSetRoom(state, id, false, config, 0);
      Dispatch(SetRoomId(id, false), 0);
      ReduceSync(state, remote, config, 0);
      Dispatch(SyncOnlineState(remote), 0);
    }

    /** Creating a room: SET_ROOM_ID as host, then SYNC_ONLINE_STATE with the
        initial settings when there are any. */
    method CreateRoom(id: string, settings: Option<RemoteSnapshot>)
      requires ValidConfig(config)
      modifies this
      ensures var joined := old(state).(roomId := Some(id), isHost := true, gameStatus := Setup);
              state == (if settings.Some? then SyncOnlineStateStep(joined, settings.value) else joined)
      ensures state.isHost
      ensures lastRemote == old(lastRemote) && published == old(published)
    {
      ReduceSetRoom(state, id, true, config, 0);
      Dispatch(SetRoomId(id, true), 0);
      if settings.Some? {
        ReduceSync(state, settings.value, config, 0);
        Dispatch(SyncOnlineState(settings.value), 0);
      }
    }
  }

  // ---------------------------------------------------------------------
  // Modals

  /** The modal on screen: none during an animation cue, without an active
      modal, or without a current player. */
  function RenderedModal(s: GameState): (m: Option<ActiveModal>)
    ensures m.Some? <==> s.animationType.None? && s.activeModal.Some? && ValidCurrent(s)
    ensures m.Some? ==> m == s.activeModal
  {
    if s.animationType.Some? || s.activeModal.None? || !(0 <= s.currentPlayerIndex < |s.players|) then None
    else s.activeModal
  }

  /** What the player answers a modal with. */
  datatype Response =
    | Closed
    | Decided(enter: bool)
    | Resolved(accepted: bool)
    | Rolled(rewards: Rewards)
    | Stayed(cost: int, health: int, happy: int)
    | Gave(gift: Rewards)

  /** The action each modal dispatches for its answer; an answer that a
      modal does not give has none. */
  function ModalAction(m: ActiveModal, resp: Response): Option<Action> {
    match (m, resp)
    case (InfoTile(_), Closed) => Some(AdvanceTurnPhase)
    case (RouteChoice(_), Decided(e)) => Some(DecideRoute(e))
    case (CardShown(_, _), Resolved(b)) => Some(ResolveCard(b))
    case (DiceEvent(_), Rolled(rw)) => Some(ResolveDiceEvent(rw))
    case (Hospital(_), Stayed(cost, h, hp)) => Some(ResolveHospital(cost, h, hp))
    case (GiftSelection(_, _, _, _), Gave(g)) => Some(ResolveGift(g))
    case _ => None
  }

  /** Every answer to the modal on screen dispatches an action the reducer
      accepts, provided a route entry has its tile and a gift its giver
      and its receiver. */
  lemma ModalAnswersAreAccepted(s: GameState, c: Config, resp: Response)
    requires RenderedModal(s).Some? && ModalAction(RenderedModal(s).value, resp).Some?
    requires resp == Decided(true) ==> s.currentTile.Some?
    requires s.activeModal.value.GiftSelection? ==>
               0 <= s.activeModal.value.giverIndex < |s.players| && 0 <= s.activeModal.value.receiverIndex < |s.players|
    ensures ReducePre(s, ModalAction(RenderedModal(s).value, resp).value, c)
  {
    var m := s.activeModal.value;
    if m.InfoTile? {
      assert AdvancePre(s);
    }
  }

  // ---------------------------------------------------------------------
  // The birthday card and the STAT_UPDATE effect

  /** With the corrected chain the summary card waits in TILE_ACTION, so
      the STAT_UPDATE effect leaves it alone, and accepting it credits the
      receiver exactly once with the total. */
  lemma BirthdayThroughShellCreditsOnce(s: GameState, gifts: seq<Rewards>, c: Config, draw: nat)
    requires ValidConfig(c)
    requires GiftChainReady(s) && |gifts| == |s.activeModal.value.pendingGiverIndices| + 1 && ReceiverApart(s)
    requires s.activeModal.value.receiverIndex == s.currentPlayerIndex
    ensures var t := RunGifts(s, gifts);
            && ValidCurrent(t)
            && AfterStatUpdate(t, c, draw) == t
            && ResolveCardPre(t, true)
            && CurrentPlayer(ResolveCardStep(t, true)).actual
               == ApplyCardRewards(CurrentPlayer(s).actual, AccumulateAll(s.activeModal.value.accumulatedGifts, gifts))
  {
    BirthdayCreditsReceiverOnce(s, gifts);
    GiftChainCompletes(s, gifts);
  }

  /** As written, the last RESOLVE_GIFT credits the receiver and enters
      STAT_UPDATE with the summary card still open; the effect hands the
      turn on and keeps the card, so accepting it applies the total once
      more, to the next player. */
  lemma BirthdayAsWrittenCreditsNextPlayer(s: GameState, g: Rewards, c: Config, draw: nat)
    requires ValidConfig(c) && GiftAsWrittenPre(s)
    requires s.activeModal.value.pendingGiverIndices == [] && s.activeModal.value.receiverIndex == s.currentPlayerIndex
    ensures var m := s.activeModal.value; var total := Accumulate(m.accumulatedGifts, g);
            var t := ResolveGiftAsWritten(s, g); var u := AfterStatUpdate(t, c, draw);
            && t.turnPhase == StatUpdate && ValidCurrent(t)
            && (m.giverIndex != m.receiverIndex ==>
                  t.players[m.receiverIndex].actual == Credit(s.players[m.receiverIndex].actual, total))
            && u.currentPlayerIndex == NextIndex(s)
            && u.activeModal == Some(CardShown(BirthdaySummaryCard(total), "CUMPLEAÑOS"))
            && ResolveCardPre(u, true)
            && CurrentPlayer(ResolveCardStep(u, true)).actual == ApplyCardRewards(t.players[NextIndex(s)].actual, total)
            && (|s.players| > 1 ==> ResolveCardStep(u, true).players[m.receiverIndex] == t.players[m.receiverIndex])
  {
  }
}
