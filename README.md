# Battleship game engine in Dafny

A model of the game-state engine of a two-player Battleship web service.

**Setup.** A `Game` starts in status 'Setting Up'. Each of its two players places one ship of every kind in the fleet roster: Destroyer 2 cells, Cruiser 3, Submarine 3, Battleship 4, Aircraft Carrier 5. Ships go on a board of size 9. Once both fleets are complete, the game moves to 'p1 move'.

**Play.** The players then fire shots in turn. A shot marks the cell of the first opponent ship covering it as hit. A ship sinks once all its cells are hit. Sinking the opponent's last ship ends the game ('game over') with the shooter as the winner.

**Other endpoints.** The service can also:
- cancel a game that is not over;
- list a player's open games;
- rank all users by the games they won.

**Layout.** There are three modules:
- `Basics` (basics.dfy) holds `Option`, `Result` and a `Subsequence` predicate used to state ordering.
- `Models` (models.dfy) holds the datastore entities:
  - the roster `Ships`/`Roster` and `BoardSize`;
  - the `Status` datatype and the status strings;
  - the `Position`, `Ship` and `Move` records;
  - class `Game`, with fields `status`, `p1`, `p2`, `winner`, `ships` and `moves` that the operations update. Its `AddShip` is the imperative placement rule with add_ship's cell loops;
  - class `Datastore`, the in-memory list of games and users;
  - the pure rules a shot follows (`Resolve`), with their lemmas.
- `Api` (api.dfy) holds the endpoint logic:
  - `PlaceShip` and `MakeMove` mutate a `Game`. `MakeMove` runs the hit scan loop `FireAt`;
  - `CancelGame` mutates the `Datastore`;
  - `GetUserGames` is a filter;
  - `GetUserRankings` counts wins in a loop and sorts.

**Class invariants.** Every operation keeps the class invariants of `Game`:
- `Valid`:
  - there is a winner exactly when the game is over;
  - every ship is well formed: a known kind, the right length, cells on the board, hit cells inside the shot range, and sunk exactly when all of its cells are hit;
  - no player's fleet overlaps itself;
  - moves are in range, by a player, and never repeated.
- `KindsUnique`: no player has two ships of one kind.
- `WinnerSound`: a winner's opponent had a fleet, and all of it is sunk.

**Source quirks kept as written:**
- A new game's status is 'Setting Up', but make_move guards against 'setting up'. The guard never fires: `MakeMove` never returns `GameNotReady`, and a shot during setup is accepted and sets 'p1 move'.
- Ship cells may lie at coordinate 9, because placement bounds are inclusive. Shots must lie in 0..8. `EdgeShipBlocksWin` proves the consequence: a fleet with such a cell can never be completely sunk.
- The roster's enumeration order is fixed but arbitrary (a dictionary's key order). The model uses the declaration order.

## Model

| member | source | states |
|---|---|---|
| Models.RosterListsShips | models.py:13 | the roster sequence lists each ship kind exactly once, with 2 to 5 cells each |
| Models.NoStatusIsLowerCaseSettingUp | api.py:161 | no stored status string equals 'setting up', so make_move's setting-up guard never fires |
| Models.ShipsOf | models.py:76-77 | get_ships returns exactly the ships owned by the given player, in stored order |
| Models.PlacedNames | models.py:81-84 | a kind is among a player's ship names iff that player has a ship of that kind |
| Models.Unplaced | models.py:83-84 | the names of a list that are not in another list, in the first list's order |
| Models.Remaining | models.py:79-84 | a player's remaining list holds exactly the roster kinds they have not placed, in roster order, and each is a known kind |
| Models.BoardCoords | models.py:105-113 | board_coords holds exactly the cells of the placing player's existing ships; other players' cells are not included |
| Models.Cells | models.py:115-139 | the cells of a ship of length `len` anchored at (x, y): the first is the anchor, and each next cell is one step right (horizontal) or down (vertical) |
| Models.NewShip | models.py:102 | the ship add_ship stores is owned by the placing player, of the requested kind, unsunk, with SHIPS[name] unhit positions on exactly the ship's cells |
| Models.PlacedShipShape | models.py:115-141 | a placement add_ship accepts creates an unsunk ship of the placing player with SHIPS[name] unhit cells, contiguous from the anchor, on the board and free |
| Models.PlacementFitsIffLastCellFits | models.py:118-139 | the cell loop passes the edge check iff the far end of the ship is at most BOARD_SIZE (inclusive bound) |
| Models.AppendKeepsFleetsDisjoint | models.py:106-141 | storing a ship whose cells are distinct and free keeps each fleet free of overlaps |
| Models.MarkHit | api.py:205-209 | the shot marks exactly the first position of the ship at (x, y) as hit and changes no coordinate |
| Models.Strike | api.py:205-215 | a struck ship keeps its owner, kind and number of cells, keeps every earlier hit and a sunk flag, and keeps its cell at (x, y) |
| Models.Resolve | api.py:199-247 | a shot leaves every ship that is not the opponent's untouched and the number of ships unchanged; a miss changes nothing; a win is always reported with the ship sunk |
| Models.FirstShipAt | api.py:200-207 | the scan stops at the first opponent ship with a cell at (x, y), or finds none |
| Models.FirstAtIsOnlyAt | api.py:205 | in a ship with distinct cells, the position the query returns is the only one at (x, y) |
| Models.SameLayoutKeepsFleetsDisjoint | api.py:204-215 | changing only hit and sunk flags keeps fleets free of overlaps |
| Models.StrikeMeaning | api.py:205-215 | a struck ship keeps its owner, kind and cells, gains exactly the hit at (x, y), and is sunk exactly when every cell is hit |
| Models.NoOtherOpponentCellAt | api.py:204-207 | only the ship the scan stops at holds an opponent cell at (x, y) |
| Models.StrikeEffect | api.py:204-215 | striking the first opponent ship at (x, y) hits exactly the opponent's cell at (x, y) and keeps every ship well formed |
| Models.ResolveEffect | api.py:199-247 | a shot changes only hit/sunk flags: exactly the opponent's cell at (x, y) becomes hit, ships stay well formed and fleets disjoint |
| Models.ResolveReport | api.py:199-247 | a miss iff no opponent ship covers (x, y), and then nothing changes; a hit names the ship hit and whether it sank; a win iff every opponent ship is sunk |
| Models.ResolveKeepsFleetValid | api.py:199-236 | a shot keeps the fleets valid and the kinds distinct, and a win means the opponent had ships and all are sunk |
| Models.EdgeShipBlocksWin | api.py:180-181 | an opponent ship with a cell at coordinate BOARD_SIZE is never sunk, so no shot wins against that fleet |
| Models.AppendMoveKeepsMovesValid | api.py:180-196 | recording an in-range, new move by a player keeps the moves valid |
| Models.Game.constructor | models.py:57-71 | a new game is 'Setting Up' with no winner, ships or moves |
| Models.Game.Opponent | api.py:167-172 | the opponent is always a player of the game: p2 for p1, and p1 for p2 when the two differ |
| Models.Game.RemainingShipsToSetup | models.py:79-84 | for each player, exactly the roster kinds that player has not placed, in roster order |
| Models.Game.GetMove | models.py:32-41 | a move is found iff the same player has a move at the same (x, y) in this game |
| Models.Game.AddShip | models.py:87-141 | off the board iff the anchor is outside [0, BOARD_SIZE]; occupied iff some on-board cell of the ship is already in the player's own fleet (every cell after an off-board cell is off the board too); success iff every cell fits and is free, and then exactly one new ship is appended; on any error nothing is stored |
| Models.LayOut | models.py:115-139 | the cell loop yields fresh positions for every cell, or 'Not a valid position' / 'Position already occupied' at the first failing cell |
| Models.NoCellAfterIsOnBoard | models.py:120-123 | once a cell is past the edge, so is every later cell |
| Models.Datastore.NewGame | models.py:65-71 | new_game stores and returns a fresh game between the two players, 'Setting Up', with nothing placed |
| Models.Datastore.DeleteGame | models.py:73-74 | delete_game removes exactly that game record and keeps the order of the others |
| Models.Without | models.py:73-74 | the games other than the deleted one, in their order, still distinct |
| Api.PlaceShip | api.py:98-143 | rejects with no change when the game is over or in progress or the user is not playing; 'not a valid move' iff the kind is not in the user's remaining list; 'invalid position' iff add_ship rejects; success iff the game is setting up, the user plays in it, the kind is in their remaining list and add_ship accepts the placement; on success exactly the new ship is stored, the user's new remaining list is returned, and the status becomes 'p1 move' exactly when both lists are empty |
| Api.PlaceOwnShip | api.py:116-143 | the placement after the checks: the remaining-list test, add_ship, and the switch to 'p1 move' once both fleets are complete |
| Api.NewKindKeepsKindsDistinct | api.py:123-125 | adding a kind the player has not yet placed keeps each player's kinds distinct |
| Api.MakeMove | api.py:151-247 | each rejection (game over, not playing, not your turn, off the board, repeated move) happens exactly under its condition and changes nothing, and 'not ready' never happens; an accepted shot appends one move, flips the turn, resolves the shot, and on a win sets 'game over' with the shooter as winner |
| Api.TakeShot | api.py:187-247 | an accepted shot: turn flip, one move appended, shot resolved against the opponent, and a win overrides the turn flip |
| Api.FireAt | api.py:199-247 | the hit-scan loop with early returns computes exactly the resolution of the shot |
| Api.CancelGame | api.py:278-294 | 'not found' iff the game is not stored; 'already over' iff it is over; success iff the game is stored and not over, and then exactly that game is removed; on an error the store is unchanged |
| Api.GetUserGames | api.py:255-270 | exactly the stored games where the user is p1 or p2 and the status is not 'game over', in creation order |
| Api.GetUserGamesAsWritten | api.py:261-265 | as written, a result comes back only when the user has no open game, and it is empty |
| Api.OpenGameBreaksCreatedSort | api.py:265 | whenever the user has an open game, the intended listing contains it while the listing as written fails |
| Api.InsertByWins | api.py:310 | insertion adds exactly one line (as a multiset), and the result starts with either the inserted line or the old first line |
| Api.InsertKeepsOrder | api.py:310 | insertion keeps lines sorted by wins, most first |
| Api.SortByWins | api.py:310 | the sort permutes the lines and orders them by wins, most first |
| Api.WithWins | api.py:310 | the lines with a given number of wins, in order |
| Api.InsertGoesFirstAmongEquals | api.py:310 | an inserted line goes ahead of the lines with equal wins |
| Api.SortByWinsIsStable | api.py:310 | lines with equal wins keep their relative order (the sort is stable) |
| Api.Wins | api.py:303-308 | a user's win count is at most the number of games, and zero exactly when no finished game names them as winner |
| Api.CountWins | api.py:305-308 | the counting loop ends with one counter per user key, each equal to that user's wins; winners outside the users are skipped |
| Api.GetUserRankings | api.py:301-311 | the rankings are a permutation of one line per user with the count of finished games that user won, sorted by wins, most first |

## Left out

- Cloud Endpoints plumbing: request containers, message classes, `to_form` and the text of the messages. Errors are modelled as `ApiError`/`GameError` values, not as exception messages.
- Datastore access:
  - Storage is in-memory. A `Game` object holds its own ships and moves.
  - Query order is taken to be creation order.
  - add_ship's transaction is modelled by its effect: the ship is stored only if the placement succeeds.
  - The except branch around the datastore delete in cancel_game is not modelled.
- User lookup by name and game lookup by URL-safe key: the endpoints receive the `Game` and the user's key. These lookup errors are therefore not modelled:
  - place_ship's 'Game not found!' and 'User does not exist!';
  - make_move's 'User not found!' (make_move does not check the game lookup result at all);
  - get_user_games' 'User not found'.
  cancel_game's 'Game not found' is modelled as the game not being in the store.
- The email and task-queue sends of make_move and the main.py handlers. These are fire-and-forget I/O.
- create_user, the new_game endpoint's user lookup, get_game_history and Game.end_game. The last is unreachable template code.
- Concurrency: the model is sequential.
- Status values other than the four the code writes: the stored status is a free string in the source.
- Models.Datastore.DeleteGame: the source's deletion of the Game record leaves its Ship, Position and Move records in the datastore. In the model these belong to the deleted `Game` object, so they leave no observable trace.
- Api.PlaceShip: it requires and preserves `KindsUnique` and `WinnerSound` besides `Valid`. A bare `Game.AddShip` call does not keep `KindsUnique`, because add_ship itself checks neither the status nor duplicates. The source only calls add_ship from place_ship.
- Api.MakeMove: it requires and preserves the same three invariants. They hold for every game built by `NewGame`, `PlaceShip` and `MakeMove`.

## Findings

| source | as written | input that shows it | evidently intended | confidence | as-written member | corrected member |
|---|---|---|---|---|---|---|
| api.py:265 | `games.sort(key=lambda a: a.created)`, but the Game model (models.py:57-63) declares no `created` property, so computing the sort key raises for every game in the list | a user who is p1 of one game in status 'p1 move' | the user's open games, oldest first | not executed; high, since an ndb model without that property raises AttributeError | Api.GetUserGamesAsWritten, Api.OpenGameBreaksCreatedSort | Api.GetUserGames |
