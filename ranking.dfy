/** The final screen: every player but the winner, ranked by success and
    split into a left and a right column. */
module Ranking {
  import opened GameTypes
  import opened GameReducer

  /** `allPlayers.filter(p => p.id !== winner.id)` */
  function OtherPlayers(all: seq<Player>, winner: Player): (r: seq<Player>)
    ensures forall p :: p in r <==> p in all && p.id != winner.id
    ensures multiset(r) <= multiset(all)
  {
    if all == [] then []
    else
      assert all == [all[0]] + all[1..];
      (if all[0].id != winner.id then [all[0]] else []) + OtherPlayers(all[1..], winner)
  }

  /** Success is non-increasing along `ps`. */
  predicate RankedBySuccess(ps: seq<Player>) {
    forall i, j :: 0 <= i < j < |ps| ==> CalculateSuccess(ps[i]) >= CalculateSuccess(ps[j])
  }

  /** A player at least as successful as the head of a ranked list can be
      put in front of it. */
  lemma PrependRanked(x: Player, rs: seq<Player>)
    requires RankedBySuccess(rs) && (rs != [] ==> CalculateSuccess(x) >= CalculateSuccess(rs[0]))
    ensures RankedBySuccess([x] + rs)
  {
    var r := [x] + rs;
    forall i, j | 0 <= i < j < |r|
      ensures CalculateSuccess(r[i]) >= CalculateSuccess(r[j])
    {
      if i == 0 {
        assert r[j] == rs[j - 1];
        assert CalculateSuccess(rs[0]) >= CalculateSuccess(rs[j - 1]);
      } else {
        assert r[i] == rs[i - 1] && r[j] == rs[j - 1];
      }
    }
  }

  /** Inserting `p` into a ranked list in front of the first player with a
      lower success, so that among equals the earlier one stays first. */
  function Insert(p: Player, ranked: seq<Player>): (r: seq<Player>)
    requires RankedBySuccess(ranked)
    ensures RankedBySuccess(r)
    ensures multiset(r) == multiset(ranked) + multiset{p}
    ensures |r| == |ranked| + 1 && (r[0] == p || (ranked != [] && r[0] == ranked[0]))
  {
    if ranked == [] || CalculateSuccess(p) >= CalculateSuccess(ranked[0]) then
      PrependRanked(p, ranked);
      [p] + ranked
    else
      assert RankedBySuccess(ranked[1..]);
      var rest := Insert(p, ranked[1..]);
      assert ranked == [ranked[0]] + ranked[1..];
      PrependRanked(ranked[0], rest);
      [ranked[0]] + rest
  }

  /** The stable sort `sort((a, b) => success(b) - success(a))`: the players
      in order of non-increasing success, the same players as before. */
  function RankPlayers(ps: seq<Player>): (r: seq<Player>)
    ensures RankedBySuccess(r)
    ensures multiset(r) == multiset(ps)
  {
    if ps == [] then []
    else
      assert ps == [ps[0]] + ps[1..];
      Insert(ps[0], RankPlayers(ps[1..]))
  }

  datatype Columns = Columns(left: seq<Player>, right: seq<Player>)

  /** The two columns: the first `ceil(n / 2)` ranked players on the left,
      the rest on the right. */
  function SplitColumns(ranked: seq<Player>): (c: Columns)
    ensures c.left + c.right == ranked
    ensures |c.left| == (|ranked| + 1) / 2
    ensures |c.left| == |c.right| || |c.left| == |c.right| + 1
  {
    var mid := (|ranked| + 1) / 2;
    Columns(ranked[..mid], ranked[mid..])
  }

  /** The final screen's columns for `winner` and `all`. */
  function FinalColumns(all: seq<Player>, winner: Player): Columns {
    SplitColumns(RankPlayers(OtherPlayers(all, winner)))
  }

  /** The columns hold every player but the winner, each exactly as often
      as in the game, ranked by success from the top-left down. */
  lemma FinalColumnsRankOthers(all: seq<Player>, winner: Player)
    ensures var c := FinalColumns(all, winner);
            && multiset(c.left + c.right) == multiset(OtherPlayers(all, winner))
            && RankedBySuccess(c.left + c.right)
            && (forall p :: p in c.left + c.right <==> p in all && p.id != winner.id)
  {
    var c := FinalColumns(all, winner);
    var ranked := RankPlayers(OtherPlayers(all, winner));
    assert c.left + c.right == ranked;
    forall p
      ensures p in ranked <==> p in OtherPlayers(all, winner)
    {
      assert p in ranked <==> p in multiset(ranked);
      assert p in OtherPlayers(all, winner) <==> p in multiset(OtherPlayers(all, winner));
    }
  }

  /** The reset button: RESET_GAME brings back the initial state. */
  lemma ResetRestartsGame(s: GameState, c: Config, draw: nat)
    requires ValidConfig(c)
    ensures Reduce(s, ResetGame, c, draw) == InitialState
  {
  }
}
