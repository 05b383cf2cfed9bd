/**
 * The Battleship datastore entities and the rules that live on them: the
 * fleet roster, the board size, the Game record with its ships, positions and
 * moves, the rule for placing a ship, and the pure rules that resolve a shot.
 */
module Models {
  import opened Basics

  /** A player: the datastore key of a User record. */
  type UserKey = int

  /** The fleet roster: ship name to number of cells. */
  const Ships: map<string, nat> :=
    map["Destroyer" := 2, "Cruiser" := 3, "Submarine" := 3, "Battleship" := 4, "Aircraft Carrier" := 5]

  /**
   * The order in which the roster's names are enumerated. The source takes
   * the keys of a dictionary, whose order is fixed but arbitrary; this is the
   * declaration order.
   */
  const Roster: seq<string> := ["Destroyer", "Cruiser", "Submarine", "Battleship", "Aircraft Carrier"]

  const BoardSize: int := 9

  /** The roster sequence lists every ship name exactly once. */
  lemma RosterListsShips()
    ensures forall n :: n in Roster <==> n in Ships
    ensures forall i, j :: 0 <= i < j < |Roster| ==> Roster[i] != Roster[j]
    ensures forall n :: n in Ships ==> 2 <= Ships[n] <= 5
  {
  }

  /** The four stored statuses of a game. */
  datatype Status = SettingUp | P1Move | P2Move | GameOver

  /** The string each status is stored as. A new game stores 'Setting Up'. */
  function StatusName(s: Status): string
  {
    match s
    case SettingUp => "Setting Up"
    case P1Move => "p1 move"
    case P2Move => "p2 move"
    case GameOver => "game over"
  }

  /** The lower-case 'setting up' that make_move compares against names no status. */
  lemma NoStatusIsLowerCaseSettingUp(s: Status)
    ensures StatusName(s) != "setting up"
  {
    assert "Setting Up"[0] != "setting up"[0];
  }

  /** One cell of a ship, and whether it has been hit. */
  datatype Position = Position(x: int, y: int, hit: bool)

  /** A ship of one player, with its cells in placement order. */
  datatype Ship = Ship(player: UserKey, name: string, sunk: bool, positions: seq<Position>)

  /** A shot fired by a player at a cell. */
  datatype Move = Move(player: UserKey, x: int, y: int)

  /** The error kinds add_ship raises. */
  datatype GameError = OffTheBoard | UnknownShip | NotAValidPosition | PositionAlreadyOccupied

  function Coord(p: Position): (int, int)
  {
    (p.x, p.y)
  }

  /** A cell a ship may occupy: both coordinates in [0, BoardSize], the top edge included. */
  predicate OnBoard(c: (int, int))
  {
    0 <= c.0 <= BoardSize && 0 <= c.1 <= BoardSize
  }

  /** A cell a player may fire at: both coordinates in [0, BoardSize). */
  predicate InShotRange(x: int, y: int)
  {
    0 <= x < BoardSize && 0 <= y < BoardSize
  }

  predicate AllHit(ps: seq<Position>)
  {
    forall a :: 0 <= a < |ps| ==> ps[a].hit
  }

  predicate HasCell(ps: seq<Position>, x: int, y: int)
  {
    exists a :: 0 <= a < |ps| && ps[a].x == x && ps[a].y == y
  }

  /** Every ship of `owner` is sunk. */
  predicate AllSunk(ships: seq<Ship>, owner: UserKey)
  {
    forall i :: 0 <= i < |ships| && ships[i].player == owner ==> ships[i].sunk
  }

  /** `owner` has a ship of kind `name`. */
  ghost predicate Placed(ships: seq<Ship>, owner: UserKey, name: string)
  {
    exists s :: s in ships && s.player == owner && s.name == name
  }

  /** The `len` cells a ship anchored at (x, y) covers, going right or down. */
  function Cells(x: int, y: int, len: nat, vertical: bool): (r: seq<(int, int)>)
    ensures |r| == len
    ensures len > 0 ==> r[0] == (x, y)
    ensures forall i :: 0 <= i < len - 1 ==>
      r[i + 1] == if vertical then (r[i].0, r[i].1 + 1) else (r[i].0 + 1, r[i].1)
  {
    seq(len, i => if vertical then (x, y + i) else (x + i, y))
  }

  /** Fresh, unhit positions on the given cells. */
  function NewPositions(cells: seq<(int, int)>): seq<Position>
  {
    seq(|cells|, i requires 0 <= i < |cells| => Position(cells[i].0, cells[i].1, false))
  }

  /** The ship add_ship stores for a successful placement. */
  function NewShip(owner: UserKey, name: string, x: int, y: int, vertical: bool): (r: Ship)
    requires name in Ships
    ensures r.player == owner && r.name == name && !r.sunk
    ensures |r.positions| == Ships[name] && Ships[name] > 0
    ensures forall a :: 0 <= a < |r.positions| ==> !r.positions[a].hit
    ensures forall c :: c in CoordsOf(r.positions) <==> c in Cells(x, y, Ships[name], vertical)
  {
    var cells := Cells(x, y, Ships[name], vertical);
    var r := Ship(owner, name, false, NewPositions(cells));
    RosterListsShips();
    assert forall a :: 0 <= a < |cells| ==> Coord(r.positions[a]) == cells[a] && cells[a] in cells;
    r
  }

  /** The ships of one player, in stored order (Game.get_ships). */
  function ShipsOf(ships: seq<Ship>, owner: UserKey): (r: seq<Ship>)
    ensures forall s :: s in r <==> s in ships && s.player == owner
    ensures Subsequence(r, ships)
  {
    if ships == [] then []
    else if ships[0].player == owner then [ships[0]] + ShipsOf(ships[1..], owner)
    else ShipsOf(ships[1..], owner)
  }

  /** The kind names of `ships`, in order. */
  function NamesOf(ships: seq<Ship>): seq<string>
  {
    seq(|ships|, i requires 0 <= i < |ships| => ships[i].name)
  }

  /** A name is among the names of a player's ships iff that player placed a ship of that kind. */
  lemma PlacedNames(ships: seq<Ship>, owner: UserKey, n: string)
    ensures n in NamesOf(ShipsOf(ships, owner)) <==> Placed(ships, owner, n)
  {
    var mine := ShipsOf(ships, owner);
    var names := NamesOf(mine);
    if n in names {
      var i :| 0 <= i < |names| && names[i] == n;
      assert mine[i] in mine;
    }
    if Placed(ships, owner, n) {
      var s :| s in ships && s.player == owner && s.name == n;
      assert s in mine;
      var i :| 0 <= i < |mine| && mine[i] == s;
      assert names[i] == n;
    }
  }

  /** The names of `names` that are not in `placed`, in the order of `names`. */
  function Unplaced(names: seq<string>, placed: seq<string>): (r: seq<string>)
    ensures forall n :: n in r <==> n in names && n !in placed
    ensures Subsequence(r, names)
  {
    if names == [] then []
    else if names[0] in placed then Unplaced(names[1..], placed)
    else [names[0]] + Unplaced(names[1..], placed)
  }

  /**
   * The roster names `owner` has not placed yet, in roster order: one of the
   * two lists of Game.remaining_ships_to_setup.
   */
  function Remaining(ships: seq<Ship>, owner: UserKey): (r: seq<string>)
    ensures forall n :: n in r <==> n in Roster && !Placed(ships, owner, n)
    ensures Subsequence(r, Roster)
    ensures forall n :: n in r ==> n in Ships
  {
    var placed := NamesOf(ShipsOf(ships, owner));
    assert forall n :: n in placed <==> Placed(ships, owner, n) by {
      forall n ensures n in placed <==> Placed(ships, owner, n) { PlacedNames(ships, owner, n); }
    }
    RosterListsShips();
    Unplaced(Roster, placed)
  }

  /** The cells `owner` already occupies, ship by ship (add_ship's board_coords). */
  function BoardCoords(ships: seq<Ship>, owner: UserKey): (r: seq<(int, int)>)
    ensures forall c :: c in r <==>
      exists i, a :: 0 <= i < |ships| && ships[i].player == owner &&
        0 <= a < |ships[i].positions| && Coord(ships[i].positions[a]) == c
  {
    if ships == [] then []
    else
      var last := ships[|ships| - 1];
      var prev := BoardCoords(ships[..|ships| - 1], owner);
      var mine := if last.player == owner then CoordsOf(last.positions) else [];
      prev + mine
  }

  /** The cells of `ps`, in order. */
  function CoordsOf(ps: seq<Position>): (r: seq<(int, int)>)
    ensures forall c :: c in r <==> exists a :: 0 <= a < |ps| && Coord(ps[a]) == c
  {
    var r := seq(|ps|, a requires 0 <= a < |ps| => Coord(ps[a]));
    assert forall a :: 0 <= a < |ps| ==> r[a] == Coord(ps[a]) && r[a] in r;
    r
  }

  /** Whether add_ship succeeds: anchor on the board, a known ship, every cell on the board and free. */
  ghost predicate CanPlace(ships: seq<Ship>, owner: UserKey, name: string, x: int, y: int, vertical: bool)
  {
    OnBoard((x, y)) && name in Ships &&
    forall c :: c in Cells(x, y, Ships[name], vertical) ==> OnBoard(c) && c !in BoardCoords(ships, owner)
  }

  /** A stored ship's shape and hit bookkeeping. */
  ghost predicate ShipValid(s: Ship)
  {
    && s.name in Ships
    && |s.positions| == Ships[s.name]
    && (forall a :: 0 <= a < |s.positions| ==> OnBoard(Coord(s.positions[a])))
    && (forall a :: 0 <= a < |s.positions| && s.positions[a].hit ==> InShotRange(s.positions[a].x, s.positions[a].y))
    && (s.sunk <==> AllHit(s.positions))
  }

  /** No two cells of one player's fleet coincide, within a ship or across ships. */
  ghost predicate FleetsDisjoint(ships: seq<Ship>)
  {
    forall i, j, a, b ::
      0 <= i < |ships| && 0 <= j < |ships| &&
      0 <= a < |ships[i].positions| && 0 <= b < |ships[j].positions| &&
      ships[i].player == ships[j].player && (i != j || a != b) ==>
        Coord(ships[i].positions[a]) != Coord(ships[j].positions[b])
  }

  /** Every ship is well formed and belongs to one of the two players, and no fleet overlaps itself. */
  ghost predicate FleetValid(ships: seq<Ship>, p1: UserKey, p2: UserKey)
  {
    && (forall i :: 0 <= i < |ships| ==> ShipValid(ships[i]) && (ships[i].player == p1 || ships[i].player == p2))
    && FleetsDisjoint(ships)
  }

  /** Every move is by a player, inside the shot range, and no move is repeated. */
  ghost predicate MovesValid(moves: seq<Move>, p1: UserKey, p2: UserKey)
  {
    && (forall k :: 0 <= k < |moves| ==> InShotRange(moves[k].x, moves[k].y) && (moves[k].player == p1 || moves[k].player == p2))
    && (forall k, l :: 0 <= k < l < |moves| ==> moves[k] != moves[l])
  }

  /** No player has two ships of the same kind. */
  ghost predicate KindsDistinct(ships: seq<Ship>)
  {
    forall i, j :: 0 <= i < j < |ships| && ships[i].player == ships[j].player ==> ships[i].name != ships[j].name
  }

  /** A successful placement yields a well-formed ship on `len` contiguous cells from the anchor. */
  lemma {:induction false} PlacedShipShape(ships: seq<Ship>, owner: UserKey, name: string, x: int, y: int, vertical: bool)
    requires CanPlace(ships, owner, name, x, y, vertical)
    ensures var s := NewShip(owner, name, x, y, vertical);
      && ShipValid(s) && !s.sunk && s.player == owner && |s.positions| == Ships[name]
      && (forall a :: 0 <= a < |s.positions| ==>
            !s.positions[a].hit &&
            Coord(s.positions[a]) == (if vertical then (x, y + a) else (x + a, y)))
      && (forall a :: 0 <= a < |s.positions| ==> Coord(s.positions[a]) !in BoardCoords(ships, owner))
  {
    var s := NewShip(owner, name, x, y, vertical);
    var cells := Cells(x, y, Ships[name], vertical);
    RosterListsShips();
    forall a | 0 <= a < |s.positions|
      ensures OnBoard(Coord(s.positions[a])) && Coord(s.positions[a]) !in BoardCoords(ships, owner)
    {
      assert Coord(s.positions[a]) == cells[a];
      assert cells[a] in cells;
    }
    assert !s.positions[0].hit;
  }

  /** A placement is decided by its last cell: every cell is on the board iff the far end is. */
  lemma {:induction false} PlacementFitsIffLastCellFits(x: int, y: int, len: nat, vertical: bool)
    requires OnBoard((x, y)) && len > 0
    ensures (forall c :: c in Cells(x, y, len, vertical) ==> OnBoard(c)) <==>
      (if vertical then y + len - 1 <= BoardSize else x + len - 1 <= BoardSize)
  {
    var cells := Cells(x, y, len, vertical);
    if forall c :: c in cells ==> OnBoard(c) {
      assert OnBoard(cells[len - 1]);
    }
    if (if vertical then y + len - 1 <= BoardSize else x + len - 1 <= BoardSize) {
      forall c | c in cells ensures OnBoard(c) {
        var i :| 0 <= i < len && cells[i] == c;
      }
    }
  }

  /** Appending a ship whose cells are distinct and free keeps the fleets disjoint. */
  lemma AppendKeepsFleetsDisjoint(ships: seq<Ship>, s: Ship)
    requires FleetsDisjoint(ships)
    requires forall a, b :: 0 <= a < b < |s.positions| ==> Coord(s.positions[a]) != Coord(s.positions[b])
    requires forall a :: 0 <= a < |s.positions| ==> Coord(s.positions[a]) !in BoardCoords(ships, s.player)
    ensures FleetsDisjoint(ships + [s])
  {
    var all := ships + [s];
    forall i, j, a, b |
      0 <= i < |all| && 0 <= j < |all| &&
      0 <= a < |all[i].positions| && 0 <= b < |all[j].positions| &&
      all[i].player == all[j].player && (i != j || a != b)
      ensures Coord(all[i].positions[a]) != Coord(all[j].positions[b])
    {
      if i == |ships| && j == |ships| {
        if a > b { assert Coord(s.positions[b]) != Coord(s.positions[a]); }
      } else if i == |ships| {
        assert Coord(ships[j].positions[b]) in BoardCoords(ships, s.player);
      } else if j == |ships| {
        assert Coord(ships[i].positions[a]) in BoardCoords(ships, s.player);
      }
    }
  }

  /** Whether position `a` is the first position of `ps` at (x, y). */
  predicate FirstAt(ps: seq<Position>, a: int, x: int, y: int)
    requires 0 <= a < |ps|
  {
    ps[a].x == x && ps[a].y == y && forall b :: 0 <= b < a ==> !(ps[b].x == x && ps[b].y == y)
  }

  /** Marks the first position at (x, y) as hit (the shot's Position query `get()`). */
  function MarkHit(ps: seq<Position>, x: int, y: int): (r: seq<Position>)
    ensures |r| == |ps|
    ensures forall a :: 0 <= a < |ps| ==> Coord(r[a]) == Coord(ps[a])
    ensures forall a :: 0 <= a < |ps| ==> (r[a].hit <==> ps[a].hit || FirstAt(ps, a, x, y))
  {
    if ps == [] then []
    else if ps[0].x == x && ps[0].y == y then [ps[0].(hit := true)] + ps[1..]
    else
      var rest := MarkHit(ps[1..], x, y);
      assert forall a :: 1 <= a < |ps| ==> (FirstAt(ps, a, x, y) <==> FirstAt(ps[1..], a - 1, x, y));
      [ps[0]] + rest
  }

  /** The ship after a shot lands on it: the cell is marked, and the ship sinks once every cell is hit. */
  function Strike(s: Ship, x: int, y: int): (r: Ship)
    ensures r.player == s.player && r.name == s.name && |r.positions| == |s.positions|
    ensures s.sunk ==> r.sunk
    ensures forall a :: 0 <= a < |s.positions| && s.positions[a].hit ==> r.positions[a].hit
    ensures HasCell(s.positions, x, y) ==> HasCell(r.positions, x, y)
  {
    var ps := MarkHit(s.positions, x, y);
    s.(positions := ps, sunk := s.sunk || AllHit(ps))
  }

  /** The index of the first ship of `owner` with a cell at (x, y), if any. */
  function FirstShipAt(ships: seq<Ship>, owner: UserKey, x: int, y: int): (r: Option<nat>)
    ensures r.Some? ==> r.value < |ships| && ships[r.value].player == owner && HasCell(ships[r.value].positions, x, y)
    ensures r.Some? ==> forall j :: 0 <= j < r.value ==> !(ships[j].player == owner && HasCell(ships[j].positions, x, y))
    ensures r.None? ==> forall j :: 0 <= j < |ships| ==> !(ships[j].player == owner && HasCell(ships[j].positions, x, y))
  {
    if ships == [] then None
    else if ships[0].player == owner && HasCell(ships[0].positions, x, y) then Some(0)
    else
      match FirstShipAt(ships[1..], owner, x, y)
      case None => None
      case Some(k) => Some(k + 1)
  }

  /** What a shot reports. */
  datatype Shot = Miss | Hit(ship: string, sunk: bool, won: bool)

  /**
   * A shot at (x, y) against the ships of `opp`: the first of them with a cell
   * there is struck; the report says whether it sank and whether that sank the
   * whole fleet.
   */
  function Resolve(ships: seq<Ship>, opp: UserKey, x: int, y: int): (r: (seq<Ship>, Shot))
    ensures |r.0| == |ships|
    ensures forall j :: 0 <= j < |ships| && ships[j].player != opp ==> r.0[j] == ships[j]
    ensures r.1.Miss? ==> r.0 == ships
    ensures r.1.Hit? && r.1.won ==> r.1.sunk
  {
    match FirstShipAt(ships, opp, x, y)
    case None => (ships, Miss)
    case Some(i) =>
      var s := Strike(ships[i], x, y);
      var after := ships[i := s];
      var sunk := AllHit(s.positions);
      (after, Hit(s.name, sunk, sunk && AllSunk(after, opp)))
  }

  /** The cells of a ship are pairwise distinct, so the first one at (x, y) is the only one. */
  lemma FirstAtIsOnlyAt(ps: seq<Position>, a: int, x: int, y: int)
    requires 0 <= a < |ps|
    requires forall b, c :: 0 <= b < |ps| && 0 <= c < |ps| && b != c ==> Coord(ps[b]) != Coord(ps[c])
    ensures FirstAt(ps, a, x, y) <==> Coord(ps[a]) == (x, y)
  {
  }

  /** Two fleets with the same owners, kinds and cells, differing at most in hit and sunk flags. */
  ghost predicate SameLayout(a: seq<Ship>, b: seq<Ship>)
  {
    |a| == |b| &&
    forall i :: 0 <= i < |a| ==>
      a[i].player == b[i].player && a[i].name == b[i].name &&
      |a[i].positions| == |b[i].positions| &&
      forall k :: 0 <= k < |a[i].positions| ==> Coord(a[i].positions[k]) == Coord(b[i].positions[k])
  }

  lemma SameLayoutKeepsFleetsDisjoint(a: seq<Ship>, b: seq<Ship>)
    requires SameLayout(a, b) && FleetsDisjoint(a)
    ensures FleetsDisjoint(b)
  {
    forall i, j, k, l |
      0 <= i < |b| && 0 <= j < |b| &&
      0 <= k < |b[i].positions| && 0 <= l < |b[j].positions| &&
      b[i].player == b[j].player && (i != j || k != l)
      ensures Coord(b[i].positions[k]) != Coord(b[j].positions[l])
    {
      assert Coord(a[i].positions[k]) == Coord(b[i].positions[k]);
      assert Coord(a[j].positions[l]) == Coord(b[j].positions[l]);
    }
  }

  /**
   * A shot on a well-formed ship marks exactly its cell at (x, y), keeps its
   * shape, and leaves its sunk flag meaning "every cell is hit".
   */
  lemma StrikeMeaning(s: Ship, x: int, y: int)
    requires ShipValid(s) && InShotRange(x, y)
    requires forall b, c :: 0 <= b < |s.positions| && 0 <= c < |s.positions| && b != c ==>
      Coord(s.positions[b]) != Coord(s.positions[c])
    ensures var t := Strike(s, x, y);
      && ShipValid(t) && t.player == s.player && t.name == s.name && |t.positions| == |s.positions|
      && (forall a :: 0 <= a < |s.positions| ==>
            Coord(t.positions[a]) == Coord(s.positions[a]) &&
            (t.positions[a].hit <==> s.positions[a].hit || Coord(s.positions[a]) == (x, y)))
  {
    var ps := MarkHit(s.positions, x, y);
    forall a | 0 <= a < |s.positions|
      ensures ps[a].hit <==> s.positions[a].hit || Coord(s.positions[a]) == (x, y)
    {
      FirstAtIsOnlyAt(s.positions, a, x, y);
    }
    if s.sunk {
      assert AllHit(ps);
    }
  }

  /**
   * What a shot does to the fleets: the layout is unchanged, exactly the
   * opponent's cell at (x, y) becomes hit, and the fleets stay well formed.
   */
  lemma {:induction false} ResolveEffect(ships: seq<Ship>, opp: UserKey, x: int, y: int)
    requires InShotRange(x, y)
    requires forall i :: 0 <= i < |ships| ==> ShipValid(ships[i])
    requires FleetsDisjoint(ships)
    ensures var after := Resolve(ships, opp, x, y).0;
      && SameLayout(ships, after)
      && (forall i, a :: 0 <= i < |ships| && 0 <= a < |ships[i].positions| ==>
            (after[i].positions[a].hit <==>
               ships[i].positions[a].hit || (ships[i].player == opp && Coord(ships[i].positions[a]) == (x, y))))
      && (forall i :: 0 <= i < |after| ==> ShipValid(after[i]))
      && FleetsDisjoint(after)
  {
    var after := Resolve(ships, opp, x, y).0;
    match FirstShipAt(ships, opp, x, y)
    case None =>
      forall i, a | 0 <= i < |ships| && ships[i].player == opp && 0 <= a < |ships[i].positions|
        ensures Coord(ships[i].positions[a]) != (x, y)
      {
        if Coord(ships[i].positions[a]) == (x, y) { assert HasCell(ships[i].positions, x, y); }
      }
    case Some(t) =>
      StrikeEffect(ships, opp, x, y, t);
  }

  /** The hit case of `ResolveEffect`: ship `t` is the first opponent ship at (x, y). */
  lemma StrikeEffect(ships: seq<Ship>, opp: UserKey, x: int, y: int, t: nat)
    requires InShotRange(x, y)
    requires forall i :: 0 <= i < |ships| ==> ShipValid(ships[i])
    requires FleetsDisjoint(ships)
    requires FirstShipAt(ships, opp, x, y) == Some(t)
    ensures var after := ships[t := Strike(ships[t], x, y)];
      && SameLayout(ships, after)
      && (forall i, a :: 0 <= i < |ships| && 0 <= a < |ships[i].positions| ==>
            (after[i].positions[a].hit <==>
               ships[i].positions[a].hit || (ships[i].player == opp && Coord(ships[i].positions[a]) == (x, y))))
      && (forall i :: 0 <= i < |after| ==> ShipValid(after[i]))
      && FleetsDisjoint(after)
  {
    var s := ships[t];
    var after := ships[t := Strike(s, x, y)];
    StrikeMeaning(s, x, y);
    NoOtherOpponentCellAt(ships, opp, x, y, t);
    assert SameLayout(ships, after);
    forall i, a | 0 <= i < |ships| && 0 <= a < |ships[i].positions|
      ensures after[i].positions[a].hit <==>
        ships[i].positions[a].hit || (ships[i].player == opp && Coord(ships[i].positions[a]) == (x, y))
    {
      if i != t {
        assert after[i] == ships[i];
      }
    }
    SameLayoutKeepsFleetsDisjoint(ships, after);
  }

  /** Within one fleet only ship `t`, which covers (x, y), has a cell there. */
  lemma NoOtherOpponentCellAt(ships: seq<Ship>, opp: UserKey, x: int, y: int, t: nat)
    requires FleetsDisjoint(ships)
    requires t < |ships| && ships[t].player == opp && HasCell(ships[t].positions, x, y)
    ensures forall i, a :: 0 <= i < |ships| && i != t && ships[i].player == opp && 0 <= a < |ships[i].positions| ==>
      Coord(ships[i].positions[a]) != (x, y)
  {
    var ax :| 0 <= ax < |ships[t].positions| && ships[t].positions[ax].x == x && ships[t].positions[ax].y == y;
    assert Coord(ships[t].positions[ax]) == (x, y);
  }

  /**
   * What a shot reports: a miss iff no opponent ship covers (x, y); otherwise
   * the kind of the opponent ship hit, whether it is now sunk, and a win iff
   * every opponent ship is now sunk.
   */
  lemma {:induction false} ResolveReport(ships: seq<Ship>, opp: UserKey, x: int, y: int)
    requires InShotRange(x, y)
    requires forall i :: 0 <= i < |ships| ==> ShipValid(ships[i])
    requires FleetsDisjoint(ships)
    ensures var (after, shot) := Resolve(ships, opp, x, y);
      && (shot.Miss? <==> forall i :: 0 <= i < |ships| && ships[i].player == opp ==> !HasCell(ships[i].positions, x, y))
      && (shot.Miss? ==> after == ships)
      && (shot.Hit? ==>
            exists i :: (0 <= i < |ships| && ships[i].player == opp && HasCell(ships[i].positions, x, y) &&
                         shot.ship == ships[i].name && (shot.sunk <==> after[i].sunk)))
      && (shot.Hit? ==> (shot.won <==> AllSunk(after, opp)))
  {
    var (after, shot) := Resolve(ships, opp, x, y);
    match FirstShipAt(ships, opp, x, y)
    case None =>
    case Some(t) =>
      var s := ships[t];
      assert after == ships[t := Strike(s, x, y)];
      StrikeMeaning(s, x, y);
      assert shot.ship == ships[t].name && (shot.sunk <==> after[t].sunk);
      if AllSunk(after, opp) {
        assert after[t].sunk;
      }
  }

  /**
   * A legal shot keeps the fleets well formed and the kinds distinct, and a
   * reported win means the opponent had ships and all of them are sunk.
   */
  lemma ResolveKeepsFleetValid(ships: seq<Ship>, p1: UserKey, p2: UserKey, opp: UserKey, x: int, y: int)
    requires InShotRange(x, y) && FleetValid(ships, p1, p2)
    ensures var (after, shot) := Resolve(ships, opp, x, y);
      && FleetValid(after, p1, p2)
      && (KindsDistinct(ships) ==> KindsDistinct(after))
      && (shot.Hit? && shot.won ==> AllSunk(after, opp) && exists i :: 0 <= i < |after| && after[i].player == opp)
  {
    var (after, shot) := Resolve(ships, opp, x, y);
    ResolveEffect(ships, opp, x, y);
    SameLayoutKeepsOwnersAndKinds(ships, after, p1, p2);
    ResolveReport(ships, opp, x, y);
    if shot.Hit? {
      var i :| 0 <= i < |ships| && ships[i].player == opp && HasCell(ships[i].positions, x, y);
      assert after[i].player == opp;
    }
  }

  /**
   * A consequence of the inclusive placement bound: a cell on the top edge
   * (coordinate BoardSize) is outside the shot range, so an opponent ship with
   * such a cell is never sunk and no shot wins against that fleet.
   */
  lemma EdgeShipBlocksWin(ships: seq<Ship>, opp: UserKey, x: int, y: int, i: nat, a: nat)
    requires InShotRange(x, y)
    requires forall j :: 0 <= j < |ships| ==> ShipValid(ships[j])
    requires FleetsDisjoint(ships)
    requires i < |ships| && ships[i].player == opp && a < |ships[i].positions|
    requires ships[i].positions[a].x == BoardSize || ships[i].positions[a].y == BoardSize
    ensures var (after, shot) := Resolve(ships, opp, x, y);
      !after[i].sunk && !AllSunk(after, opp) && !(shot.Hit? && shot.won)
  {
    var (after, shot) := Resolve(ships, opp, x, y);
    ResolveEffect(ships, opp, x, y);
    ResolveReport(ships, opp, x, y);
    assert Coord(after[i].positions[a]) == Coord(ships[i].positions[a]);
    assert !after[i].positions[a].hit;
  }

  /** Fleets with the same layout have the same owners and kinds. */
  lemma SameLayoutKeepsOwnersAndKinds(a: seq<Ship>, b: seq<Ship>, p1: UserKey, p2: UserKey)
    requires SameLayout(a, b)
    ensures (forall i :: 0 <= i < |a| ==> a[i].player == p1 || a[i].player == p2) ==>
      (forall i :: 0 <= i < |b| ==> b[i].player == p1 || b[i].player == p2)
    ensures KindsDistinct(a) ==> KindsDistinct(b)
  {
  }

  /** Appending a move that is by a player, in range and new keeps the moves valid. */
  lemma AppendMoveKeepsMovesValid(moves: seq<Move>, p1: UserKey, p2: UserKey, m: Move)
    requires MovesValid(moves, p1, p2)
    requires InShotRange(m.x, m.y) && (m.player == p1 || m.player == p2) && m !in moves
    ensures MovesValid(moves + [m], p1, p2)
  {
  }

  /** A Game record together with its descendant ships, positions and moves. */
  class Game {
    var status: Status
    var p1: UserKey
    var p2: UserKey
    var winner: Option<UserKey>
    var ships: seq<Ship>
    var moves: seq<Move>

    /** A new game between two players: setting up, no ships, no moves, no winner. */
    constructor (user1: UserKey, user2: UserKey)
      ensures status == SettingUp && StatusName(status) == "Setting Up"
      ensures p1 == user1 && p2 == user2 && winner == None
      ensures ships == [] && moves == []
      ensures Valid() && KindsUnique() && WinnerSound()
    {
      status := SettingUp;
      p1, p2 := user1, user2;
      winner := None;
      ships, moves := [], [];
    }

    predicate IsPlayer(user: UserKey)
      reads this
    {
      user == p1 || user == p2
    }

    /** The other side of the board: p2 for p1, p1 for anyone else. */
    function Opponent(user: UserKey): (r: UserKey)
      reads this
      ensures IsPlayer(r)
      ensures user == p1 ==> r == p2
      ensures user == p2 && p1 != p2 ==> r == p1
    {
      if user == p1 then p2 else p1
    }

    /** The key add_ship places for: p1 for player number 1, p2 otherwise. */
    function PlayerKey(player: int): UserKey
      reads this
    {
      if player == 1 then p1 else p2
    }

    /** The records are well formed; every operation keeps this. */
    ghost predicate Valid()
      reads this
    {
      && (winner.Some? <==> status == GameOver)
      && FleetValid(ships, p1, p2)
      && MovesValid(moves, p1, p2)
    }

    /** No player has two ships of the same kind. */
    ghost predicate KindsUnique()
      reads this
    {
      KindsDistinct(ships)
    }

    /** A winner is a player whose opponent had a fleet and lost all of it. */
    ghost predicate WinnerSound()
      reads this
    {
      winner.Some? ==>
        IsPlayer(winner.value) &&
        (exists i :: 0 <= i < |ships| && ships[i].player == Opponent(winner.value)) &&
        AllSunk(ships, Opponent(winner.value))
    }

    /** For each player, the roster names still to be placed (remaining_ships_to_setup). */
    function RemainingShipsToSetup(): (r: (seq<string>, seq<string>))
      reads this
      ensures forall n :: n in r.0 <==> n in Roster && !Placed(ships, p1, n)
      ensures forall n :: n in r.1 <==> n in Roster && !Placed(ships, p2, n)
      ensures Subsequence(r.0, Roster) && Subsequence(r.1, Roster)
    {
      (Remaining(ships, p1), Remaining(ships, p2))
    }

    /** The move by `player` at (x, y), if there is one (Move.get_move). */
    function GetMove(player: UserKey, x: int, y: int): (r: Option<Move>)
      reads this
      ensures r.Some? <==> exists k :: 0 <= k < |moves| && moves[k].player == player && moves[k].x == x && moves[k].y == y
      ensures r.Some? ==> r.value in moves && r.value.player == player && r.value.x == x && r.value.y == y
    {
      if Move(player, x, y) in moves then Some(Move(player, x, y)) else None
    }

    /**
     * Places a ship for player number `player` (1 for p1, anything else for
     * p2), anchored at (x, y). All or nothing: on any rejection no ship is
     * stored.
     */
    method AddShip(player: int, shipName: string, x: int, y: int, vertical: bool) returns (r: Result<(), GameError>)
      requires Valid()
      modifies this
      ensures Valid()
      ensures status == old(status) && p1 == old(p1) && p2 == old(p2) && winner == old(winner) && moves == old(moves)
      ensures r == Err(OffTheBoard) <==> !OnBoard((x, y))
      ensures r == Err(UnknownShip) <==> OnBoard((x, y)) && shipName !in Ships
      ensures r == Err(PositionAlreadyOccupied) <==>
        (OnBoard((x, y)) && shipName in Ships &&
         exists c :: c in Cells(x, y, Ships[shipName], vertical) && OnBoard(c) && c in BoardCoords(old(ships), PlayerKey(player)))
      ensures r.Ok? <==> CanPlace(old(ships), PlayerKey(player), shipName, x, y, vertical)
      ensures r.Ok? ==> ships == old(ships) + [NewShip(PlayerKey(player), shipName, x, y, vertical)]
      ensures r.Err? ==> ships == old(ships)
    {
      if y > BoardSize || x > BoardSize || y < 0 || x < 0 {
        return Err(OffTheBoard);
      }
      var pKey := if player == 1 then p1 else p2;
      var boardCoords := BoardCoords(ships, pKey);
      if shipName !in Ships {
        return Err(UnknownShip);
      }
      var coordinates := LayOut(boardCoords, x, y, Ships[shipName], vertical);
      if coordinates.Err? {
        return Err(coordinates.error);
      }
      var ship := Ship(pKey, shipName, false, coordinates.value);
      PlacedShipShape(ships, pKey, shipName, x, y, vertical);
      AppendKeepsFleetsDisjoint(ships, ship);
      ships := ships + [ship];
      r := Ok(());
    }
  }

  /**
   * The cell loop of add_ship: walks the cells from the anchor, right or
   * down, stops at the first cell past the board edge or already in `board`,
   * and otherwise collects a fresh position per cell.
   */
  method LayOut(board: seq<(int, int)>, x: int, y: int, len: nat, vertical: bool) returns (r: Result<seq<Position>, GameError>)
    requires OnBoard((x, y))
    ensures r.Ok? <==> forall c :: c in Cells(x, y, len, vertical) ==> OnBoard(c) && c !in board
    ensures r.Ok? ==> r.value == NewPositions(Cells(x, y, len, vertical))
    ensures r == Err(PositionAlreadyOccupied) <==> exists c :: c in Cells(x, y, len, vertical) && OnBoard(c) && c in board
    ensures r.Err? ==> r == Err(PositionAlreadyOccupied) || r == Err(NotAValidPosition)
  {
    ghost var cells := Cells(x, y, len, vertical);
    var cx, cy := x, y;
    var coordinates: seq<Position> := [];
    if !vertical {
      while cx < x + len
        invariant x <= cx <= x + len && cy == y
        invariant |coordinates| == cx - x
        invariant forall i :: 0 <= i < cx - x ==> coordinates[i] == Position(x + i, y, false)
        invariant forall i :: 0 <= i < cx - x ==> OnBoard(cells[i]) && cells[i] !in board
      {
        if cx > BoardSize {
          NoCellAfterIsOnBoard(cells, x, y, len, vertical, cx - x);
          return Err(NotAValidPosition);
        }
        if (cx, cy) in board {
          assert cells[cx - x] in cells;
          return Err(PositionAlreadyOccupied);
        }
        coordinates := coordinates + [Position(cx, cy, false)];
        cx := cx + 1;
      }
    } else {
      while cy < y + len
        invariant y <= cy <= y + len && cx == x
        invariant |coordinates| == cy - y
        invariant forall i :: 0 <= i < cy - y ==> coordinates[i] == Position(x, y + i, false)
        invariant forall i :: 0 <= i < cy - y ==> OnBoard(cells[i]) && cells[i] !in board
      {
        if cy > BoardSize {
          NoCellAfterIsOnBoard(cells, x, y, len, vertical, cy - y);
          return Err(NotAValidPosition);
        }
        if (cx, cy) in board {
          assert cells[cy - y] in cells;
          return Err(PositionAlreadyOccupied);
        }
        coordinates := coordinates + [Position(cx, cy, false)];
        cy := cy + 1;
      }
    }
    forall c | c in cells ensures OnBoard(c) && c !in board {
      var i :| 0 <= i < |cells| && cells[i] == c;
    }
    assert coordinates == NewPositions(cells);
    r := Ok(coordinates);
  }

  /** When cell k of a placement is off the board, so is every later cell. */
  lemma NoCellAfterIsOnBoard(cells: seq<(int, int)>, x: int, y: int, len: nat, vertical: bool, k: int)
    requires cells == Cells(x, y, len, vertical)
    requires 0 <= k < len && !OnBoard(cells[k]) && OnBoard((x, y))
    ensures forall i :: k <= i < len ==> !OnBoard(cells[i])
  {
  }

  /** The store of Game and User records, in creation order. */
  class Datastore {
    var games: seq<Game>
    var users: seq<User>

    ghost predicate Valid()
      reads this
    {
      && (forall i, j :: 0 <= i < j < |games| ==> games[i] != games[j])
      && (forall i, j :: 0 <= i < j < |users| ==> users[i].key != users[j].key)
    }

    constructor (users0: seq<User>)
      requires forall i, j :: 0 <= i < j < |users0| ==> users0[i].key != users0[j].key
      ensures games == [] && users == users0 && Valid()
    {
      games, users := [], users0;
    }

    /** Creates and stores a new game between two players (Game.new_game). */
    method NewGame(user1: UserKey, user2: UserKey) returns (g: Game)
      requires Valid()
      modifies this
      ensures Valid() && fresh(g)
      ensures games == old(games) + [g] && users == old(users)
      ensures g.status == SettingUp && g.p1 == user1 && g.p2 == user2 && g.winner == None
      ensures g.ships == [] && g.moves == []
      ensures g.Valid() && g.KindsUnique() && g.WinnerSound()
    {
      g := new Game(user1, user2);
      games := games + [g];
    }

    /** Deletes the Game record only (Game.delete_game). */
    method DeleteGame(g: Game)
      requires Valid()
      modifies this
      ensures Valid() && users == old(users)
      ensures games == Without(old(games), g)
    {
      games := Without(games, g);
    }
  }

  /** A User record. */
  datatype User = User(key: UserKey, name: string)

  /** `games` with `g` removed, order kept. */
  function Without(games: seq<Game>, g: Game): (r: seq<Game>)
    ensures forall i :: 0 <= i < |r| ==> r[i] in games && r[i] != g
    ensures forall i :: 0 <= i < |games| && games[i] != g ==> games[i] in r
    ensures Subsequence(r, games)
    ensures (forall i, j :: 0 <= i < j < |games| ==> games[i] != games[j]) ==>
      forall i, j :: 0 <= i < j < |r| ==> r[i] != r[j]
  {
    if games == [] then []
    else if games[0] == g then Without(games[1..], g)
    else [games[0]] + Without(games[1..], g)
  }
}
