/** The board view: the 11x11 grid whose perimeter carries the main board,
    the highlight of the current player's tile, and the grouping of
    player tokens by the tile they stand on. */
module Board {
  import opened GameTypes
  import opened GameReducer

  const GridSide := 11
  const GridCells := 121
  const PerimeterCells := 40

  /** The main-board index shown in grid cell `i` (row `i / 11`, column
      `i % 11`), -1 for the interior: the bottom row runs 0..10 left to
      right, the right column climbs 11..20, the top row runs back 21..30
      and the left column descends 31..39. */
  function GridToTileIndex(i: int): (t: int)
    requires 0 <= i < GridCells
    ensures -1 <= t < PerimeterCells
    ensures t == -1 <==> (1 <= i / GridSide <= 9 && 1 <= i % GridSide <= 9)
    ensures i == 110 ==> t == 0
    ensures i == 120 ==> t == 10
    ensures i == 10 ==> t == 20
    ensures i == 0 ==> t == 30
  {
    var r := i / GridSide;
    var c := i % GridSide;
    if r == 10 then c
    else if c == 10 then 10 + (10 - r)
    else if r == 0 then 20 + (10 - c)
    else if c == 0 then 30 + r
    else -1
  }

  /** The grid cell that shows main-board index `t`: the inverse map. */
  function TileCell(t: int): (i: int)
    requires 0 <= t < PerimeterCells
    ensures 0 <= i < GridCells
  {
    if t <= 10 then 10 * GridSide + t
    else if t <= 20 then (20 - t) * GridSide + 10
    else if t <= 30 then 30 - t
    else (t - 30) * GridSide
  }

  /** The perimeter is mapped one-to-one onto the indices 0..39. */
  lemma GridMapIsBijection()
    ensures forall i :: 0 <= i < GridCells && GridToTileIndex(i) != -1 ==> TileCell(GridToTileIndex(i)) == i
    ensures forall t :: 0 <= t < PerimeterCells ==> GridToTileIndex(TileCell(t)) == t
  {
    forall i | 0 <= i < GridCells && GridToTileIndex(i) != -1
      ensures TileCell(GridToTileIndex(i)) == i
    {
      assert i == (i / GridSide) * GridSide + i % GridSide;
    }
    forall t | 0 <= t < PerimeterCells
      ensures GridToTileIndex(TileCell(t)) == t
    {
      var i := TileCell(t);
      if t <= 10 {
        assert i / GridSide == 10 && i % GridSide == t;
      } else if t <= 20 {
        assert i / GridSide == 20 - t && i % GridSide == 10;
      } else if t <= 30 {
        assert i / GridSide == 0 && i % GridSide == 30 - t;
      } else {
        assert i / GridSide == t - 30 && i % GridSide == 0;
      }
    }
  }

  /** A grid cell shows a tile only when its index exists on the board. */
  predicate RenderedAsTile(i: int, boardLength: int)
    requires 0 <= i < GridCells
  {
    GridToTileIndex(i) != -1 && GridToTileIndex(i) < boardLength
  }

  /** The main tile `tIdx` is highlighted: the current player stands on it
      outside any route. */
  predicate MainHighlighted(s: GameState, tIdx: int)
    requires ValidCurrent(s)
  {
    !CurrentPlayer(s).inRoute && CurrentPlayer(s).actual.pos == tIdx
  }

  /** The inner tile `i` is highlighted: the current player is on route
      step `i + 1`. */
  predicate InnerHighlighted(s: GameState, i: int)
    requires ValidCurrent(s)
  {
    CurrentPlayer(s).inRoute && CurrentPlayer(s).rSteps - 1 == i
  }

  /** Exactly one grid cell is highlighted for a player on a shown tile
      of the main board, and no inner tile is; inside a route no grid
      cell is highlighted. */
  lemma {:induction false} OneHighlight(s: GameState, boardLength: int)
    requires ValidCurrent(s)
    ensures !CurrentPlayer(s).inRoute && 0 <= CurrentPlayer(s).actual.pos < Min(boardLength, PerimeterCells) ==>
              var pos := CurrentPlayer(s).actual.pos;
              && RenderedAsTile(TileCell(pos), boardLength) && MainHighlighted(s, GridToTileIndex(TileCell(pos)))
              && (forall i :: 0 <= i < GridCells && i != TileCell(pos) && RenderedAsTile(i, boardLength) ==>
                               !MainHighlighted(s, GridToTileIndex(i)))
              && (forall k :: !InnerHighlighted(s, k))
    ensures CurrentPlayer(s).inRoute ==>
              forall i :: 0 <= i < GridCells && RenderedAsTile(i, boardLength) ==> !MainHighlighted(s, GridToTileIndex(i))
  {
    GridMapIsBijection();
  }

  // ---------------------------------------------------------------------
  // Token groups

  /** The group key of a token: the inner tile `rSteps - 1` inside a
      route, the board position otherwise.  The source's string keys
      `inner-<n>` and `<pos>` never collide, so a datatype stands for them. */
  datatype Key = InnerKey(step: int) | MainKey(pos: int)

  function TokenKey(p: Player): Key {
    if p.inRoute then InnerKey(p.rSteps - 1) else MainKey(p.actual.pos)
  }

  /** The players with key `k`, in player order. */
  function Members(ps: seq<Player>, k: Key): (g: seq<Player>)
    ensures forall q :: q in g ==> q in ps && TokenKey(q) == k
    ensures forall i :: 0 <= i < |ps| && TokenKey(ps[i]) == k ==> ps[i] in g
    ensures |g| <= |ps|
  {
    if ps == [] then []
    else Members(ps[..|ps| - 1], k) + (if TokenKey(ps[|ps| - 1]) == k then [ps[|ps| - 1]] else [])
  }

  lemma MembersSnoc(ps: seq<Player>, p: Player, k: Key)
    ensures Members(ps + [p], k) == Members(ps, k) + (if TokenKey(p) == k then [p] else [])
  {
    assert (ps + [p])[..|ps|] == ps;
  }

  lemma MembersNonEmpty(ps: seq<Player>, k: Key)
    ensures Members(ps, k) != [] <==> exists i :: 0 <= i < |ps| && TokenKey(ps[i]) == k
  {
    if Members(ps, k) != [] {
      assert Members(ps, k)[0] in ps;
    }
  }

  /** `groups` holds exactly the non-empty groups of the players `done`. */
  ghost predicate GroupsOf(groups: map<Key, seq<Player>>, done: seq<Player>) {
    && (forall k :: k in groups <==> Members(done, k) != [])
    && (forall k :: k in groups ==> groups[k] == Members(done, k))
  }

  /** Pushing one more player onto its key's group keeps the groups exact. */
  lemma GroupsPush(groups: map<Key, seq<Player>>, done: seq<Player>, p: Player)
    requires GroupsOf(groups, done)
    ensures var key := TokenKey(p);
            GroupsOf(groups[key := (if key in groups then groups[key] else []) + [p]], done + [p])
  {
    var key := TokenKey(p);
    var next := groups[key := (if key in groups then groups[key] else []) + [p]];
    forall k
      ensures (k in next <==> Members(done + [p], k) != []) && (k in next ==> next[k] == Members(done + [p], k))
    {
      MembersSnoc(done, p, k);
    }
  }

  /** `playerPositions`: one group per occupied key, each holding that key's
      players in player order; every player is in the group of its own key
      and no other. */
  method GroupTokens(ps: seq<Player>) returns (groups: map<Key, seq<Player>>)
    ensures forall k :: k in groups <==> exists i :: 0 <= i < |ps| && TokenKey(ps[i]) == k
    ensures forall k :: k in groups ==> groups[k] == Members(ps, k)
  {
    groups := map[];
    var i := 0;
    while i < |ps|
      invariant 0 <= i <= |ps|
      invariant GroupsOf(groups, ps[..i])
    {
      var p := ps[i];
      var key := TokenKey(p);
      GroupsPush(groups, ps[..i], p);
      assert ps[..i + 1] == ps[..i] + [p];
      var group := if key in groups then groups[key] else [];
      groups := groups[key := group + [p]];
      i := i + 1;
    }
    assert ps[..|ps|] == ps;
    forall k {
      MembersNonEmpty(ps, k);
    }
  }
}
