/**
 * The engine logic of the Battleship endpoints: placing ships, firing shots,
 * cancelling a game, listing a player's open games and ranking players by
 * wins. Game lookup by URL-safe key and user lookup by name are done by the
 * caller: the endpoints here receive the Game object and the user's key.
 */
module Api {
  import opened Basics
  import opened Models

  /** The request errors the endpoints raise. */
  datatype ApiError =
    | GameNotFound
    | GameAlreadyOver
    | GameInProgress
    | NotPlaying
    | InvalidPositionOrShip
    | NotAValidMove
    | GameNotReady
    | NotYourTurn
    | OffBoard
    | MoveAlreadyMade

  /**
   * Places a ship for `user`. Only a game still setting up accepts ships, only
   * from its players, and only of a kind that player has yet to place. Once
   * both fleets are complete the game moves to 'p1 move'. On success, returns
   * the kinds `user` has left to place.
   */
  method PlaceShip(g: Game, user: UserKey, shipName: string, x: int, y: int, vertical: bool)
    returns (r: Result<seq<string>, ApiError>)
    requires g.Valid() && g.KindsUnique() && g.WinnerSound()
    modifies g
    ensures g.Valid() && g.KindsUnique() && g.WinnerSound()
    ensures g.p1 == old(g.p1) && g.p2 == old(g.p2) && g.moves == old(g.moves) && g.winner == old(g.winner)
    ensures r == Err(GameAlreadyOver) <==> old(g.status) == GameOver
    ensures r == Err(GameInProgress) <==> old(g.status) == P1Move || old(g.status) == P2Move
    ensures r == Err(NotPlaying) <==> old(g.status) == SettingUp && !g.IsPlayer(user)
    ensures r == Err(NotAValidMove) <==>
      old(g.status) == SettingUp && g.IsPlayer(user) && shipName !in Remaining(old(g.ships), user)
    ensures r == Err(InvalidPositionOrShip) <==>
      (old(g.status) == SettingUp && g.IsPlayer(user) && shipName in Remaining(old(g.ships), user) &&
       !CanPlace(old(g.ships), user, shipName, x, y, vertical))
    ensures r.Err? ==> g.ships == old(g.ships) && g.status == old(g.status)
    ensures r.Ok? ==> shipName in Ships && g.ships == old(g.ships) + [NewShip(user, shipName, x, y, vertical)]
    ensures r.Ok? ==> r.value == Remaining(g.ships, user)
    ensures r.Ok? ==> (g.status == P1Move <==> Remaining(g.ships, g.p1) == [] && Remaining(g.ships, g.p2) == [])
    ensures r.Ok? && g.status != P1Move ==> g.status == SettingUp
    ensures r.Ok? <==>
      (old(g.status) == SettingUp && g.IsPlayer(user) && shipName in Remaining(old(g.ships), user) &&
       CanPlace(old(g.ships), user, shipName, x, y, vertical))
  {
    if g.status == GameOver {
      return Err(GameAlreadyOver);
    }
    if g.status == P1Move || g.status == P2Move {
      return Err(GameInProgress);
    }
    if user != g.p1 && user != g.p2 {
      return Err(NotPlaying);
    }
    var remainingTup := g.RemainingShipsToSetup();
    var playerNum := 0;
    if user == g.p1 {
      playerNum := 1;
    }
    if user == g.p2 {
      playerNum := 2;
    }
    var mine := if playerNum == 1 then remainingTup.0 else remainingTup.1;
    r := PlaceOwnShip(g, user, playerNum, mine, shipName, x, y, vertical);
  }

  /**
   * The part of `PlaceShip` after the status and participant checks: `user`,
   * who is player `playerNum`, places a ship if `mine`, the kinds they still
   * have to place, lists it.
   */
  method PlaceOwnShip(g: Game, user: UserKey, playerNum: int, mine: seq<string>,
                      shipName: string, x: int, y: int, vertical: bool)
    returns (r: Result<seq<string>, ApiError>)
    requires g.Valid() && g.KindsUnique() && g.WinnerSound()
    requires g.status == SettingUp && g.PlayerKey(playerNum) == user && g.IsPlayer(user)
    requires mine == Remaining(g.ships, user)
    modifies g
    ensures g.Valid() && g.KindsUnique() && g.WinnerSound()
    ensures g.p1 == old(g.p1) && g.p2 == old(g.p2) && g.moves == old(g.moves) && g.winner == old(g.winner)
    ensures r.Err? ==> r.error == NotAValidMove || r.error == InvalidPositionOrShip
    ensures r == Err(NotAValidMove) <==> shipName !in mine
    ensures r == Err(InvalidPositionOrShip) <==>
      shipName in mine && !CanPlace(old(g.ships), user, shipName, x, y, vertical)
    ensures r.Err? ==> g.ships == old(g.ships) && g.status == old(g.status)
    ensures r.Ok? ==> shipName in Ships && g.ships == old(g.ships) + [NewShip(user, shipName, x, y, vertical)]
    ensures r.Ok? ==> r.value == Remaining(g.ships, user)
    ensures r.Ok? ==> (g.status == P1Move <==> Remaining(g.ships, g.p1) == [] && Remaining(g.ships, g.p2) == [])
    ensures r.Ok? && g.status != P1Move ==> g.status == SettingUp
  {
    if shipName in mine {
      ghost var before := g.ships;
      var added := g.AddShip(playerNum, shipName, x, y, vertical);
      if added.Err? {
        return Err(InvalidPositionOrShip);
      }
      NewKindKeepsKindsDistinct(before, NewShip(user, shipName, x, y, vertical));
      var remaining := g.RemainingShipsToSetup();
      var shipList := if playerNum == 1 then remaining.0 else remaining.1;
      if remaining.0 == [] && remaining.1 == [] {
        g.status := P1Move;
      }
      return Ok(shipList);
    }
    return Err(NotAValidMove);
  }

  /** Appending a ship of a kind its owner has not placed keeps the kinds distinct. */
  lemma NewKindKeepsKindsDistinct(ships: seq<Ship>, s: Ship)
    requires KindsDistinct(ships) && !Placed(ships, s.player, s.name)
    ensures KindsDistinct(ships + [s])
  {
    forall i | 0 <= i < |ships| && ships[i].player == s.player ensures ships[i].name != s.name {
      assert ships[i] in ships;
    }
  }

  /**
   * The status in which it is `user`'s opponent's turn: 'p2 move' for p1 and
   * 'p1 move' for anyone else.
   */
  function OpponentsTurn(g: Game, user: UserKey): Status
    reads g
  {
    if user == g.p1 then P2Move else P1Move
  }

  /**
   * Whether the status lets `user` fire: the game is not over, `user` plays
   * in it, and it is not the opponent's turn. This holds while the game is
   * still setting up, since the setting-up guard of make_move compares
   * against a name no status has.
   */
  predicate CanFire(g: Game, user: UserKey)
    reads g
  {
    g.status != GameOver && g.IsPlayer(user) && g.status != OpponentsTurn(g, user)
  }

  /**
   * Fires a shot by `player` at (x, y). A shot the rules accept is recorded as
   * a move, hands the turn to the other player and then strikes the first
   * opponent ship covering (x, y); sinking the opponent's last ship ends the
   * game with `player` as the winner.
   */
  method MakeMove(g: Game, player: UserKey, x: int, y: int) returns (r: Result<Shot, ApiError>)
    requires g.Valid() && g.KindsUnique() && g.WinnerSound()
    modifies g
    ensures g.Valid() && g.KindsUnique() && g.WinnerSound()
    ensures g.p1 == old(g.p1) && g.p2 == old(g.p2)
    ensures r == Err(GameAlreadyOver) <==> old(g.status) == GameOver
    ensures r != Err(GameNotReady)
    ensures r == Err(NotPlaying) <==> old(g.status) != GameOver && !g.IsPlayer(player)
    ensures r == Err(NotYourTurn) <==>
      old(g.status) != GameOver && g.IsPlayer(player) && old(g.status) == OpponentsTurn(g, player)
    ensures r == Err(OffBoard) <==> old(CanFire(g, player)) && !InShotRange(x, y)
    ensures r == Err(MoveAlreadyMade) <==>
      old(CanFire(g, player)) && InShotRange(x, y) && old(g.GetMove(player, x, y)).Some?
    ensures r.Ok? <==> old(CanFire(g, player)) && InShotRange(x, y) && old(g.GetMove(player, x, y)).None?
    ensures r.Err? ==>
      g.status == old(g.status) && g.winner == old(g.winner) && g.ships == old(g.ships) && g.moves == old(g.moves)
    ensures r.Ok? ==> g.moves == old(g.moves) + [Move(player, x, y)]
    ensures r.Ok? ==> (g.ships, r.value) == Resolve(old(g.ships), g.Opponent(player), x, y)
    ensures r.Ok? ==>
      g.status == (if r.value.Hit? && r.value.won then GameOver else if old(g.status) == P1Move then P2Move else P1Move)
    ensures r.Ok? ==> g.winner == if r.value.Hit? && r.value.won then Some(player) else old(g.winner)
  {
    if g.status == GameOver {
      return Err(GameAlreadyOver);
    }
    if StatusName(g.status) == "setting up" {
      NoStatusIsLowerCaseSettingUp(g.status);
      return Err(GameNotReady);
    }
    if g.p1 != player && g.p2 != player {
      return Err(NotPlaying);
    }
    var opponent;
    if g.p1 == player {
      opponent := g.p2;
      if g.status == P2Move {
        return Err(NotYourTurn);
      }
    } else {
      opponent := g.p1;
      if g.status == P1Move {
        return Err(NotYourTurn);
      }
    }
    if !(0 <= x < BoardSize) || !(0 <= y < BoardSize) {
      return Err(OffBoard);
    }
    if g.GetMove(player, x, y).Some? {
      return Err(MoveAlreadyMade);
    }

    r := TakeShot(g, player, opponent, x, y);
  }

  /**
   * The part of `MakeMove` after a shot is found legal: hand the turn over,
   * record the move, strike the opponent's fleet and, if that sank it, end
   * the game with `player` as the winner.
   */
  method TakeShot(g: Game, player: UserKey, opponent: UserKey, x: int, y: int) returns (r: Result<Shot, ApiError>)
    requires g.Valid() && g.KindsUnique() && g.WinnerSound()
    requires g.status != GameOver && g.IsPlayer(player) && opponent == g.Opponent(player)
    requires InShotRange(x, y) && g.GetMove(player, x, y).None?
    modifies g
    ensures g.Valid() && g.KindsUnique() && g.WinnerSound()
    ensures g.p1 == old(g.p1) && g.p2 == old(g.p2)
    ensures r.Ok? && g.moves == old(g.moves) + [Move(player, x, y)]
    ensures (g.ships, r.value) == Resolve(old(g.ships), opponent, x, y)
    ensures g.status == (if r.value.Hit? && r.value.won then GameOver else if old(g.status) == P1Move then P2Move else P1Move)
    ensures g.winner == if r.value.Hit? && r.value.won then Some(player) else old(g.winner)
  {
    var status := if g.status == P1Move then P2Move else P1Move;
    AppendMoveKeepsMovesValid(g.moves, g.p1, g.p2, Move(player, x, y));
    var moves := g.moves + [Move(player, x, y)];
    var ships, shot := FireAt(g.ships, opponent, x, y);
    ResolveKeepsFleetValid(g.ships, g.p1, g.p2, opponent, x, y);
    var winner := g.winner;
    if shot.Hit? && shot.won {
      status := GameOver;
      winner := Some(player);
    }
    g.status, g.moves, g.ships, g.winner := status, moves, ships, winner;
    r := Ok(shot);
  }

  /**
   * The hit scan of make_move: walks the ships in stored order, and the first
   * ship of `opponent` with a cell at (x, y) has that cell marked hit; the
   * ship sinks once every cell is hit, and the report says whether that sank
   * the whole fleet.
   */
  method FireAt(ships: seq<Ship>, opponent: UserKey, x: int, y: int) returns (after: seq<Ship>, shot: Shot)
    ensures (after, shot) == Resolve(ships, opponent, x, y)
  {
    var i := 0;
    while i < |ships|
      invariant 0 <= i <= |ships|
      invariant forall j :: 0 <= j < i ==> !(ships[j].player == opponent && HasCell(ships[j].positions, x, y))
    {
      var s := ships[i];
      if s.player == opponent && HasCell(s.positions, x, y) {
        assert FirstShipAt(ships, opponent, x, y) == Some(i);
        var positions := MarkHit(s.positions, x, y);
        s := s.(positions := positions);
        if AllHit(positions) {
          s := s.(sunk := true);
          after := ships[i := s];
          if AllSunk(after, opponent) {
            return after, Hit(s.name, true, true);
          }
          return after, Hit(s.name, true, false);
        }
        after := ships[i := s];
        return after, Hit(s.name, false, false);
      }
      i := i + 1;
    }
    return ships, Miss;
  }

  /** Deletes a game that is not over; the game's ships and moves are not touched. */
  method CancelGame(store: Datastore, g: Game) returns (r: Result<(), ApiError>)
    requires store.Valid()
    modifies store
    ensures store.Valid() && store.users == old(store.users)
    ensures r == Err(GameNotFound) <==> g !in old(store.games)
    ensures r == Err(GameAlreadyOver) <==> g in old(store.games) && g.status == GameOver
    ensures r.Ok? ==> store.games == Without(old(store.games), g)
    ensures r.Ok? <==> g in old(store.games) && g.status != GameOver
    ensures r.Err? ==> store.games == old(store.games)
  {
    if g !in store.games {
      return Err(GameNotFound);
    }
    if g.status == GameOver {
      return Err(GameAlreadyOver);
    }
    store.DeleteGame(g);
    r := Ok(());
  }

  /**
   * The games `user` plays in that are not over, in creation order (the
   * store keeps games in creation order).
   */
  function GetUserGames(games: seq<Game>, user: UserKey): (r: seq<Game>)
    reads games
    ensures forall i :: 0 <= i < |r| ==> r[i] in games && r[i].IsPlayer(user) && r[i].status != GameOver
    ensures forall i :: 0 <= i < |games| && games[i].IsPlayer(user) && games[i].status != GameOver ==> games[i] in r
    ensures Subsequence(r, games)
  {
    if games == [] then []
    else if games[0].IsPlayer(user) && games[0].status != GameOver then [games[0]] + GetUserGames(games[1..], user)
    else GetUserGames(games[1..], user)
  }

  /**
   * get_user_games as written: the sort key reads a `created` property that
   * the Game model does not declare, so the sort raises (None here) as soon
   * as there is any game to sort, and only an empty result comes back.
   */
  function GetUserGamesAsWritten(games: seq<Game>, user: UserKey): (r: Option<seq<Game>>)
    reads games
    ensures r.Some? ==> r.value == [] && forall i :: 0 <= i < |games| ==> !(games[i].IsPlayer(user) && games[i].status != GameOver)
  {
    var open := GetUserGames(games, user);
    if open == [] then Some([]) else None
  }

  /**
   * The discrepancy: whenever `user` has an open game, the intended listing
   * holds it, but the listing as written fails.
   */
  lemma OpenGameBreaksCreatedSort(games: seq<Game>, user: UserKey, i: int)
    requires 0 <= i < |games| && games[i].IsPlayer(user) && games[i].status != GameOver
    ensures games[i] in GetUserGames(games, user)
    ensures GetUserGamesAsWritten(games, user) == None
  {
  }

  /** One line of the rankings. */
  datatype RankLine = RankLine(name: string, wins: nat)

  /** The number of finished games in `games` that name `user` as the winner. */
  function Wins(games: seq<Game>, user: UserKey): (r: nat)
    reads games
    ensures r <= |games|
    ensures r == 0 <==> forall i :: 0 <= i < |games| ==> !(games[i].status == GameOver && games[i].winner == Some(user))
  {
    if games == [] then 0
    else
      var last := games[|games| - 1];
      Wins(games[..|games| - 1], user) + (if last.status == GameOver && last.winner == Some(user) then 1 else 0)
  }

  /** One unsorted line per user, with that user's win count. */
  ghost function Standings(users: seq<User>, games: seq<Game>): seq<RankLine>
    reads games
  {
    seq(|users|, j requires 0 <= j < |users| reads games => RankLine(users[j].name, Wins(games, users[j].key)))
  }

  /** Win counts never increase along `lines`. */
  predicate ByWinsDescending(lines: seq<RankLine>)
  {
    forall i, j :: 0 <= i < j < |lines| ==> lines[i].wins >= lines[j].wins
  }

  /** Inserts `l` into lines sorted by descending wins, before the first line with fewer wins. */
  function InsertByWins(l: RankLine, lines: seq<RankLine>): (r: seq<RankLine>)
    ensures multiset(r) == multiset(lines) + multiset{l}
    ensures r[0] == l || (lines != [] && r[0] == lines[0])
  {
    if lines == [] || l.wins >= lines[0].wins then [l] + lines
    else
      assert lines == [lines[0]] + lines[1..];
      [lines[0]] + InsertByWins(l, lines[1..])
  }

  /** Inserting into lines sorted by descending wins keeps them sorted. */
  lemma {:induction false} InsertKeepsOrder(l: RankLine, lines: seq<RankLine>)
    requires ByWinsDescending(lines)
    ensures ByWinsDescending(InsertByWins(l, lines))
  {
    if lines == [] || l.wins >= lines[0].wins {
    } else {
      InsertKeepsOrder(l, lines[1..]);
      var rest := InsertByWins(l, lines[1..]);
      assert lines[0].wins >= rest[0].wins;
    }
  }

  /** Sorts lines by descending wins (the rankings sort). */
  function SortByWins(lines: seq<RankLine>): (r: seq<RankLine>)
    ensures multiset(r) == multiset(lines)
    ensures ByWinsDescending(r)
  {
    if lines == [] then []
    else
      assert lines == [lines[0]] + lines[1..];
      var rest := SortByWins(lines[1..]);
      InsertKeepsOrder(lines[0], rest);
      InsertByWins(lines[0], rest)
  }

  /** The lines of `lines` with exactly `w` wins, in order. */
  function WithWins(lines: seq<RankLine>, w: nat): (r: seq<RankLine>)
    ensures Subsequence(r, lines)
    ensures forall l :: l in r <==> l in lines && l.wins == w
  {
    if lines == [] then []
    else if lines[0].wins == w then [lines[0]] + WithWins(lines[1..], w)
    else WithWins(lines[1..], w)
  }

  /** Insertion puts `l` ahead of every line with as many wins as it has. */
  lemma {:induction false} InsertGoesFirstAmongEquals(l: RankLine, lines: seq<RankLine>, w: nat)
    ensures WithWins(InsertByWins(l, lines), w) ==
      if l.wins == w then [l] + WithWins(lines, w) else WithWins(lines, w)
  {
    if lines == [] || l.wins >= lines[0].wins {
      assert ([l] + lines)[1..] == lines;
    } else {
      InsertGoesFirstAmongEquals(l, lines[1..], w);
      assert ([lines[0]] + InsertByWins(l, lines[1..]))[1..] == InsertByWins(l, lines[1..]);
    }
  }

  /** The rankings sort is stable: lines with equal wins keep their relative order. */
  lemma {:induction false} SortByWinsIsStable(lines: seq<RankLine>, w: nat)
    ensures WithWins(SortByWins(lines), w) == WithWins(lines, w)
  {
    if lines != [] {
      SortByWinsIsStable(lines[1..], w);
      InsertGoesFirstAmongEquals(lines[0], SortByWins(lines[1..]), w);
    }
  }

  /**
   * The rankings: every user once, with the number of finished games they
   * won, most wins first.
   */
  method GetUserRankings(store: Datastore) returns (rankings: seq<RankLine>)
    requires store.Valid()
    ensures multiset(rankings) == multiset(Standings(store.users, store.games))
    ensures ByWinsDescending(rankings)
  {
    var games := store.games;
    var users := store.users;
    var counts := CountWins(games, set u | u in users :: u.key);
    var lines := seq(|users|, j requires 0 <= j < |users| => RankLine(users[j].name, counts[users[j].key]));
    assert lines == Standings(users, games);
    rankings := SortByWins(lines);
  }

  /**
   * The counting loop of get_user_rankings: one counter per key in `keys`,
   * raised once for every finished game that names that key as the winner.
   * Winners outside `keys` are skipped.
   */
  method CountWins(games: seq<Game>, keys: set<UserKey>) returns (counts: map<UserKey, nat>)
    ensures counts.Keys == keys
    ensures forall k :: k in counts ==> counts[k] == Wins(games, k)
  {
    counts := map k | k in keys :: 0;
    var i := 0;
    while i < |games|
      invariant 0 <= i <= |games|
      invariant counts.Keys == keys
      invariant forall k :: k in counts ==> counts[k] == Wins(games[..i], k)
    {
      var g := games[i];
      assert games[..i + 1][..i] == games[..i];
      if g.status == GameOver && g.winner.Some? && g.winner.value in counts {
        counts := counts[g.winner.value := counts[g.winner.value] + 1];
      }
      i := i + 1;
    }
    assert games[..i] == games;
  }
}
