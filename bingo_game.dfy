/** The game page: the tracked board of one (player, session) pair (`useBingoBoard`),
    the players of the session, the tile map, the 5x5 grid and the vote on a click. */
module BingoGame {
  import opened Wrappers
  import opened Identities
  import opened Bindings
  import opened Sequences
  import App

  // ===========================================================================
  // useBingoBoard

  /** The handlers' test: the row's player hex and session id equal the tracked pair. */
  predicate Matches(b: BingoBoard, playerId: Identity, gameSessionId: int)
  {
    ToHex(b.playerId) == ToHex(playerId) && b.gameSessionId == gameSessionId
  }

  /** Comparing hex strings is comparing identities. */
  lemma MatchesMeansSamePair(b: BingoBoard, playerId: Identity, gameSessionId: int)
    ensures Matches(b, playerId, gameSessionId) <==> b.playerId == playerId && b.gameSessionId == gameSessionId
  {
    ToHexInjective(b.playerId, playerId);
  }

  /** The effect's guard: a connection, a player and a truthy session id (0 is falsy). */
  predicate Armed(hasConn: bool, playerId: Option<Identity>, gameSessionId: Option<int>)
  {
    hasConn && playerId.Some? && gameSessionId.Some? && gameSessionId.value != 0
  }

  /** The first board of the cache, in iteration order, that matches the pair. */
  function FirstMatching(cache: seq<BingoBoard>, playerId: Identity, gameSessionId: int): Option<BingoBoard>
  {
    FindFirst(cache, (b: BingoBoard) => Matches(b, playerId, gameSessionId))
  }

  /** The initial scan of the cache: stops at the first matching board. */
  method ScanCache(cache: seq<BingoBoard>, playerId: Identity, gameSessionId: int) returns (found: Option<BingoBoard>)
    ensures found == FirstMatching(cache, playerId, gameSessionId)
  {
    found := None;
    var i := 0;
    while i < |cache|
      invariant 0 <= i <= |cache|
      invariant FirstMatching(cache[i..], playerId, gameSessionId) == FirstMatching(cache, playerId, gameSessionId)
    {
      if Matches(cache[i], playerId, gameSessionId) {
        found := Some(cache[i]);
        break;
      }
      assert cache[i..][1..] == cache[i + 1..];
      i := i + 1;
    }
  }

  datatype BoardEvent =
    | Insert(row: BingoBoard)
    | Update(oldRow: BingoBoard, newRow: BingoBoard)
    | Delete(row: BingoBoard)

  /** The row a handler tests: the inserted or deleted row, or the new row of an update. */
  function TestedRow(e: BoardEvent): BingoBoard
  {
    match e
    case Insert(row) => row
    case Update(_, newRow) => newRow
    case Delete(row) => row
  }

  /** The tracked board after one event reaches the registered handlers. */
  function Track(board: Option<BingoBoard>, e: BoardEvent, playerId: Identity, gameSessionId: int): (r: Option<BingoBoard>)
    ensures !Matches(TestedRow(e), playerId, gameSessionId) ==> r == board
    ensures Matches(TestedRow(e), playerId, gameSessionId) ==> r == if e.Delete? then None else Some(TestedRow(e))
  {
    match e
    case Insert(row) => if Matches(row, playerId, gameSessionId) then Some(row) else board
    case Update(_, newRow) => if Matches(newRow, playerId, gameSessionId) then Some(newRow) else board
    case Delete(row) => if Matches(row, playerId, gameSessionId) then None else board
  }

  /** The tracked board after a sequence of events, delivered in order. */
  function TrackAll(board: Option<BingoBoard>, events: seq<BoardEvent>, playerId: Identity, gameSessionId: int): Option<BingoBoard>
    decreases |events|
  {
    if events == [] then board
    else TrackAll(Track(board, events[0], playerId, gameSessionId), events[1..], playerId, gameSessionId)
  }

  lemma UpdateTestsOnlyNewRow(board: Option<BingoBoard>, oldRow: BingoBoard, newRow: BingoBoard, playerId: Identity, gameSessionId: int)
    ensures Track(board, Update(oldRow, newRow), playerId, gameSessionId) == Track(board, Insert(newRow), playerId, gameSessionId)
  {
  }

  /** Events about other (player, session) pairs never change the tracked board. */
  lemma {:induction false} TrackAllIgnoresOtherPairs(board: Option<BingoBoard>, events: seq<BoardEvent>, playerId: Identity, gameSessionId: int)
    requires forall i :: 0 <= i < |events| ==> !Matches(TestedRow(events[i]), playerId, gameSessionId)
    ensures TrackAll(board, events, playerId, gameSessionId) == board
    decreases |events|
  {
    if events != [] {
      TrackAllIgnoresOtherPairs(board, events[1..], playerId, gameSessionId);
    }
  }

  lemma {:induction false} TrackAllAppend(board: Option<BingoBoard>, first: seq<BoardEvent>, second: seq<BoardEvent>, playerId: Identity, gameSessionId: int)
    ensures TrackAll(board, first + second, playerId, gameSessionId)
         == TrackAll(TrackAll(board, first, playerId, gameSessionId), second, playerId, gameSessionId)
    decreases |first|
  {
    if first != [] {
      assert (first + second)[1..] == first[1..] + second;
      TrackAllAppend(Track(board, first[0], playerId, gameSessionId), first[1..], second, playerId, gameSessionId);
    } else {
      assert first + second == second;
    }
  }

  /** The tracked board is decided by the last event about the pair: its row after an
      insert or update, nothing after a delete. */
  lemma LastMatchingEventDecides(board: Option<BingoBoard>, before: seq<BoardEvent>, e: BoardEvent, after: seq<BoardEvent>,
                                 playerId: Identity, gameSessionId: int)
    requires Matches(TestedRow(e), playerId, gameSessionId)
    requires forall i :: 0 <= i < |after| ==> !Matches(TestedRow(after[i]), playerId, gameSessionId)
    ensures TrackAll(board, before + [e] + after, playerId, gameSessionId) == if e.Delete? then None else Some(TestedRow(e))
  {
    TrackAllAppend(board, before + [e], after, playerId, gameSessionId);
    TrackAllAppend(board, before, [e], playerId, gameSessionId);
    var mid := TrackAll(board, before + [e], playerId, gameSessionId);
    TrackAllIgnoresOtherPairs(mid, after, playerId, gameSessionId);
  }

  /** A tracked board that belongs to the pair keeps belonging to it. */
  lemma {:induction false} TrackAllKeepsPair(board: Option<BingoBoard>, events: seq<BoardEvent>, playerId: Identity, gameSessionId: int)
    requires board.Some? ==> board.value.playerId == playerId && board.value.gameSessionId == gameSessionId
    ensures var r := TrackAll(board, events, playerId, gameSessionId);
            r.Some? ==> r.value.playerId == playerId && r.value.gameSessionId == gameSessionId
    decreases |events|
  {
    if events != [] {
      MatchesMeansSamePair(TestedRow(events[0]), playerId, gameSessionId);
      TrackAllKeepsPair(Track(board, events[0], playerId, gameSessionId), events[1..], playerId, gameSessionId);
    }
  }

  /** `useBingoBoard`: the board state and the three handlers registered for one
      (player, session) pair while the effect is armed. */
  class BoardTracker {
    var board: Option<BingoBoard>
    var listening: bool
    var playerId: Identity
    var gameSessionId: int

    constructor ()
      ensures board == None && !listening
    {
      board := None;
      listening := false;
      playerId := [];
      gameSessionId := 0;
    }

    /** The effect run for new dependencies: the previous handlers are removed; when the
        guard passes, the cache is scanned and the handlers are registered. A board
        already held is kept when the scan finds none. */
    method Subscribe(hasConn: bool, player: Option<Identity>, session: Option<int>, cache: seq<BingoBoard>)
      modifies this
      ensures listening == Armed(hasConn, player, session)
      ensures !listening ==> board == old(board)
      ensures listening ==> playerId == player.value && gameSessionId == session.value
      ensures listening ==> board == match FirstMatching(cache, playerId, gameSessionId)
                                    case Some(b) => Some(b)
                                    case None => old(board)
    {
      listening := false;
      if !hasConn || player.None? || session.None? || session.value == 0 {
        return;
      }
      var found := ScanCache(cache, player.value, session.value);
      if found.Some? {
        board := found;
      }
      playerId, gameSessionId := player.value, session.value;
      listening := true;
    }

    method OnInsert(row: BingoBoard)
      modifies this`board
      ensures board == if listening then Track(old(board), Insert(row), playerId, gameSessionId) else old(board)
    {
      if listening && Matches(row, playerId, gameSessionId) {
        board := Some(row);
      }
    }

    method OnUpdate(oldRow: BingoBoard, newRow: BingoBoard)
      modifies this`board
      ensures board == if listening then Track(old(board), Update(oldRow, newRow), playerId, gameSessionId) else old(board)
    {
      if listening && Matches(newRow, playerId, gameSessionId) {
        board := Some(newRow);
      }
    }

    method OnDelete(row: BingoBoard)
      modifies this`board
      ensures board == if listening then Track(old(board), Delete(row), playerId, gameSessionId) else old(board)
    {
      if listening && Matches(row, playerId, gameSessionId) {
        board := None;
      }
    }
  }

  // ===========================================================================
  // playersInGame: filter by session, look up each player, drop the unresolved.

  /** `players.get(ps.playerId.toHexString())`. */
  function Resolve(players: map<string, Player>, row: PlayerSession): Option<Player>
  {
    var k := ToHex(row.playerId);
    if k in players then Some(players[k]) else None
  }

  function SessionRows(rows: seq<PlayerSession>, gameSessionId: int): (r: seq<PlayerSession>)
    ensures |r| <= |rows|
    ensures forall row :: row in r <==> row in rows && row.gameSessionId == gameSessionId
  {
    if rows == [] then []
    else if rows[0].gameSessionId == gameSessionId then [rows[0]] + SessionRows(rows[1..], gameSessionId)
    else SessionRows(rows[1..], gameSessionId)
  }

  function LookUp(rows: seq<PlayerSession>, players: map<string, Player>): (r: seq<Option<Player>>)
    ensures |r| == |rows|
  {
    seq(|rows|, i requires 0 <= i < |rows| => Resolve(players, rows[i]))
  }

  function Defined(found: seq<Option<Player>>): (r: seq<Player>)
    ensures |r| <= |found|
    ensures forall p :: p in r <==> Some(p) in found
  {
    if found == [] then []
    else if found[0].Some? then [found[0].value] + Defined(found[1..])
    else Defined(found[1..])
  }

  function PlayersInGame(rows: seq<PlayerSession>, players: map<string, Player>, gameSessionId: int): (r: seq<Player>)
    ensures |r| <= |SessionRows(rows, gameSessionId)|
  {
    Defined(LookUp(SessionRows(rows, gameSessionId), players))
  }

  /** The players shown are exactly those resolved from a membership row of the session. */
  lemma PlayersInGameMembers(rows: seq<PlayerSession>, players: map<string, Player>, gameSessionId: int, p: Player)
    ensures p in PlayersInGame(rows, players, gameSessionId)
        <==> exists row :: row in rows && row.gameSessionId == gameSessionId && Resolve(players, row) == Some(p)
  {
    var s := SessionRows(rows, gameSessionId);
    var l := LookUp(s, players);
    if p in PlayersInGame(rows, players, gameSessionId) {
      var i :| 0 <= i < |l| && l[i] == Some(p);
      assert s[i] in s;
    }
    if exists row :: row in rows && row.gameSessionId == gameSessionId && Resolve(players, row) == Some(p) {
      var row :| row in rows && row.gameSessionId == gameSessionId && Resolve(players, row) == Some(p);
      var i :| 0 <= i < |s| && s[i] == row;
      assert l[i] == Some(p);
    }
  }

  lemma {:induction false} SessionRowsAppend(a: seq<PlayerSession>, b: seq<PlayerSession>, gameSessionId: int)
    ensures SessionRows(a + b, gameSessionId) == SessionRows(a, gameSessionId) + SessionRows(b, gameSessionId)
  {
    if a != [] {
      assert (a + b)[1..] == a[1..] + b;
      SessionRowsAppend(a[1..], b, gameSessionId);
    } else {
      assert a + b == b;
    }
  }

  lemma {:induction false} DefinedAppend(a: seq<Option<Player>>, b: seq<Option<Player>>)
    ensures Defined(a + b) == Defined(a) + Defined(b)
  {
    if a != [] {
      assert (a + b)[1..] == a[1..] + b;
      DefinedAppend(a[1..], b);
    } else {
      assert a + b == b;
    }
  }

  lemma LookUpAppend(a: seq<PlayerSession>, b: seq<PlayerSession>, players: map<string, Player>)
    ensures LookUp(a + b, players) == LookUp(a, players) + LookUp(b, players)
  {
    var l, la, lb := LookUp(a + b, players), LookUp(a, players), LookUp(b, players);
    forall i | 0 <= i < |l|
      ensures l[i] == (la + lb)[i]
    {
      if i < |a| {
        assert (a + b)[i] == a[i];
      } else {
        assert (a + b)[i] == b[i - |a|];
      }
    }
  }

  /** The join keeps row order: the rows before and after any split contribute in turn. */
  lemma PlayersInGameAppend(a: seq<PlayerSession>, b: seq<PlayerSession>, players: map<string, Player>, gameSessionId: int)
    ensures PlayersInGame(a + b, players, gameSessionId)
         == PlayersInGame(a, players, gameSessionId) + PlayersInGame(b, players, gameSessionId)
  {
    SessionRowsAppend(a, b, gameSessionId);
    var sa, sb := SessionRows(a, gameSessionId), SessionRows(b, gameSessionId);
    LookUpAppend(sa, sb, players);
    DefinedAppend(LookUp(sa, players), LookUp(sb, players));
  }

  /** The join of one membership row: its player if the row is for the session and the
      player is cached, and nothing otherwise. */
  lemma PlayersInGameOfOne(row: PlayerSession, players: map<string, Player>, gameSessionId: int)
    ensures PlayersInGame([row], players, gameSessionId)
         == if row.gameSessionId == gameSessionId && Resolve(players, row).Some?
            then [Resolve(players, row).value] else []
  {
    var s := SessionRows([row], gameSessionId);
    assert [row][1..] == [];
    if row.gameSessionId == gameSessionId {
      assert s == [row];
      var l := LookUp(s, players);
      assert l == [Resolve(players, row)];
      assert l[1..] == [];
    } else {
      assert s == [];
    }
  }

  /** A membership row whose player is not cached yet is dropped silently. */
  lemma DanglingRowIsDropped(a: seq<PlayerSession>, row: PlayerSession, b: seq<PlayerSession>, players: map<string, Player>, gameSessionId: int)
    requires Resolve(players, row).None?
    ensures PlayersInGame(a + [row] + b, players, gameSessionId)
         == PlayersInGame(a, players, gameSessionId) + PlayersInGame(b, players, gameSessionId)
  {
    PlayersInGameAppend(a + [row], b, players, gameSessionId);
    PlayersInGameAppend(a, [row], players, gameSessionId);
    PlayersInGameOfOne(row, players, gameSessionId);
    var pa := PlayersInGame(a, players, gameSessionId);
    assert pa + [] == pa;
  }

  /** The players shown are, one for one and in order, the players of the rows. */
  predicate ShowsEachRow(players: map<string, Player>, s: seq<PlayerSession>, r: seq<Player>)
  {
    |r| == |s| && forall i :: 0 <= i < |s| ==> Some(r[i]) == Resolve(players, s[i])
  }

  lemma ShowsEachRowCons(players: map<string, Player>, row: PlayerSession, s: seq<PlayerSession>, r: seq<Player>)
    requires ShowsEachRow(players, s, r)
    requires Resolve(players, row).Some?
    ensures ShowsEachRow(players, [row] + s, [Resolve(players, row).value] + r)
  {
    var s1, r1 := [row] + s, [Resolve(players, row).value] + r;
    forall i | 0 <= i < |s1|
      ensures Some(r1[i]) == Resolve(players, s1[i])
    {
      if i > 0 {
        assert s1[i] == s[i - 1] && r1[i] == r[i - 1];
      }
    }
  }

  /** When every membership row of the session resolves, one player is shown per row,
      in row order. */
  lemma {:induction false} AllResolvedShowsEveryMember(rows: seq<PlayerSession>, players: map<string, Player>, gameSessionId: int)
    requires forall row :: row in rows && row.gameSessionId == gameSessionId ==> Resolve(players, row).Some?
    ensures ShowsEachRow(players, SessionRows(rows, gameSessionId), PlayersInGame(rows, players, gameSessionId))
  {
    if rows != [] {
      var head, rest := rows[0], rows[1..];
      assert [head] + rest == rows;
      assert forall row :: row in rest ==> row in rows;
      AllResolvedShowsEveryMember(rest, players, gameSessionId);
      SessionRowsAppend([head], rest, gameSessionId);
      PlayersInGameAppend([head], rest, players, gameSessionId);
      PlayersInGameOfOne(head, players, gameSessionId);
      assert [head][1..] == [];
      var s', r' := SessionRows(rest, gameSessionId), PlayersInGame(rest, players, gameSessionId);
      if head.gameSessionId == gameSessionId {
        assert SessionRows([head], gameSessionId) == [head];
        ShowsEachRowCons(players, head, s', r');
      } else {
        assert SessionRows([head], gameSessionId) == [];
        assert [] + s' == s' && [] + r' == r';
      }
    }
  }

  // ===========================================================================
  // boardItemsMap: each tile's id looked up in the session's items.

  /** Some item of the session carries the id. */
  predicate HasItem(items: seq<BoardItem>, id: int)
  {
    exists i :: 0 <= i < |items| && items[i].id == id
  }

  /** `item` is the first of the session's items that carries the id. */
  predicate FirstWithId(items: seq<BoardItem>, id: int, item: BoardItem)
  {
    exists i :: 0 <= i < |items| && items[i] == item && forall j :: 0 <= j < i ==> items[j].id != id
  }

  /** `gameSession.boardItems.find(item => item.id === id)`: the first item with the id,
      since nothing keeps the ids of a session's items distinct. */
  function FindItem(items: seq<BoardItem>, id: int): (r: Option<BoardItem>)
    ensures r.Some? <==> HasItem(items, id)
    ensures r.Some? ==> r.value in items && r.value.id == id && FirstWithId(items, id, r.value)
  {
    FindFirst(items, (item: BoardItem) => item.id == id)
  }

  /** The tile sits at (x, y) and its id names one of the session's items. */
  predicate PlacedAt(tiles: seq<Tile>, items: seq<BoardItem>, j: int, x: int, y: int)
    requires 0 <= j < |tiles|
  {
    tiles[j].x == x && tiles[j].y == y && HasItem(items, tiles[j].id)
  }

  /** Some tile at (x, y) has an id that resolves. */
  ghost predicate Placed(tiles: seq<Tile>, items: seq<BoardItem>, x: int, y: int)
  {
    exists j :: 0 <= j < |tiles| && PlacedAt(tiles, items, j, x, y)
  }

  /** The item the tile map ends up holding at (x, y): that of the last tile at (x, y)
      whose id resolves, since later tiles overwrite earlier ones. */
  function LastResolvedAt(tiles: seq<Tile>, items: seq<BoardItem>, x: int, y: int): (r: Option<BoardItem>)
    ensures r.Some? <==> Placed(tiles, items, x, y)
  {
    if tiles == [] then None
    else
      var n := |tiles| - 1;
      var rest := tiles[..n];
      if PlacedAt(tiles, items, n, x, y) then
        FindItem(items, tiles[n].id)
      else
        var r := LastResolvedAt(rest, items, x, y);
        assert forall j :: 0 <= j < n ==> (PlacedAt(tiles, items, j, x, y) <==> PlacedAt(rest, items, j, x, y));
        r
  }

  /** Tile j is placed at (x, y) and no later tile placed there resolves. */
  predicate LastPlacedAt(tiles: seq<Tile>, items: seq<BoardItem>, j: int, x: int, y: int)
    requires 0 <= j < |tiles|
  {
    PlacedAt(tiles, items, j, x, y) && forall k :: j < k < |tiles| ==> !PlacedAt(tiles, items, k, x, y)
  }

  /** What the tile map holds at (x, y) is the item of a tile placed there after which no
      other tile placed there resolves. */
  lemma {:induction false} LastResolvedAtIsLastPlaced(tiles: seq<Tile>, items: seq<BoardItem>, x: int, y: int)
    requires LastResolvedAt(tiles, items, x, y).Some?
    ensures exists j :: 0 <= j < |tiles| && LastPlacedAt(tiles, items, j, x, y)
                        && LastResolvedAt(tiles, items, x, y) == FindItem(items, tiles[j].id)
  {
    var n := |tiles| - 1;
    var rest := tiles[..n];
    if PlacedAt(tiles, items, n, x, y) {
      assert LastPlacedAt(tiles, items, n, x, y);
      assert LastResolvedAt(tiles, items, x, y) == FindItem(items, tiles[n].id);
    } else {
      assert LastResolvedAt(tiles, items, x, y) == LastResolvedAt(rest, items, x, y);
      LastResolvedAtIsLastPlaced(rest, items, x, y);
      var j :| 0 <= j < |rest| && LastPlacedAt(rest, items, j, x, y)
               && LastResolvedAt(rest, items, x, y) == FindItem(items, rest[j].id);
      LastPlacedExtends(tiles, items, j, x, y);
    }
  }

  /** A tile last placed at (x, y) among all but the final tile stays last when the final
      tile is not placed there. */
  lemma LastPlacedExtends(tiles: seq<Tile>, items: seq<BoardItem>, j: int, x: int, y: int)
    requires 0 <= j < |tiles| - 1
    requires LastPlacedAt(tiles[..|tiles| - 1], items, j, x, y)
    requires !PlacedAt(tiles, items, |tiles| - 1, x, y)
    ensures LastPlacedAt(tiles, items, j, x, y)
  {
    var rest := tiles[..|tiles| - 1];
    assert rest[j] == tiles[j];
    assert PlacedAt(tiles, items, j, x, y);
    forall k | j < k < |tiles|
      ensures !PlacedAt(tiles, items, k, x, y)
    {
      if k < |rest| {
        assert rest[k] == tiles[k];
        assert !PlacedAt(rest, items, k, x, y);
      }
    }
  }

  /** `boardItemsMap.get(`${x}-${y}`)`. */
  function Get(m: map<(int, int), BoardItem>, x: int, y: int): Option<BoardItem>
  {
    if (x, y) in m then Some(m[(x, y)]) else None
  }

  /** The tile map holds, at every coordinate, the last resolved tile's item there. */
  ghost predicate DescribesTiles(m: map<(int, int), BoardItem>, tiles: seq<Tile>, items: seq<BoardItem>)
  {
    forall x, y :: Get(m, x, y) == LastResolvedAt(tiles, items, x, y)
  }

  /** The tile map of the tracked board: empty without a board; otherwise each tile whose
      id resolves writes its item at its coordinate, in tile order. */
  method BuildBoardItemsMap(board: Option<BingoBoard>, items: seq<BoardItem>) returns (m: map<(int, int), BoardItem>)
    ensures board.None? ==> m == map[]
    ensures board.Some? ==> DescribesTiles(m, board.value.bingoItemTiles, items)
  {
    m := map[];
    if board.Some? {
      var tiles := board.value.bingoItemTiles;
      for i := 0 to |tiles|
        invariant DescribesTiles(m, tiles[..i], items)
      {
        var tile := tiles[i];
        var boardItem := FindItem(items, tile.id);
        if boardItem.Some? {
          m := m[(tile.x, tile.y) := boardItem.value];
        }
        assert tiles[..i + 1][..i] == tiles[..i];
      }
      assert tiles[..|tiles|] == tiles;
    }
  }

  // ===========================================================================
  // The 5x5 grid and the click handler.

  const BoardWidth: nat := 5

  datatype Cell = Cell(x: int, y: int, item: Option<BoardItem>)

  /** The text a cell shows. */
  function CellText(c: Cell): string
  {
    if c.item.Some? then c.item.value.body else "Empty"
  }

  /** Whether a cell is drawn as checked (`item?.checked`). */
  function CellChecked(c: Cell): bool
  {
    c.item.Some? && c.item.value.checked
  }

  function Row(m: map<(int, int), BoardItem>, y: int): seq<Cell>
  {
    seq(BoardWidth, x => Cell(x, y, Get(m, x, y)))
  }

  function Rows(m: map<(int, int), BoardItem>): seq<seq<Cell>>
  {
    seq(BoardWidth, y => Row(m, y))
  }

  /** `Array.prototype.flat()` of one level. */
  function Flatten(rows: seq<seq<Cell>>): seq<Cell>
  {
    if rows == [] then [] else rows[0] + Flatten(rows[1..])
  }

  lemma {:induction false} FlattenRows(rows: seq<seq<Cell>>)
    requires forall r :: r in rows ==> |r| == BoardWidth
    ensures |Flatten(rows)| == BoardWidth * |rows|
    ensures forall i :: 0 <= i < BoardWidth * |rows| ==> Flatten(rows)[i] == rows[i / BoardWidth][i % BoardWidth]
  {
    if rows != [] {
      FlattenRows(rows[1..]);
      var f := Flatten(rows);
      forall i | 0 <= i < BoardWidth * |rows|
        ensures f[i] == rows[i / BoardWidth][i % BoardWidth]
      {
        if i >= BoardWidth {
          assert f[i] == Flatten(rows[1..])[i - BoardWidth];
          assert (i - BoardWidth) / BoardWidth == i / BoardWidth - 1;
          assert (i - BoardWidth) % BoardWidth == i % BoardWidth;
        }
      }
    }
  }

  /** The rendered grid: 25 cells in row-major order, y outer and x inner, each holding
      the tile map's entry at its coordinate or nothing. */
  function Grid(m: map<(int, int), BoardItem>): (g: seq<Cell>)
    ensures |g| == BoardWidth * BoardWidth
    ensures forall i :: 0 <= i < |g| ==>
              g[i] == Cell(i % BoardWidth, i / BoardWidth, Get(m, i % BoardWidth, i / BoardWidth))
  {
    FlattenRows(Rows(m));
    Flatten(Rows(m))
  }

  /** Every cell lies on the board; an entry stored outside 0..4 never shows. */
  lemma GridIgnoresOutsideEntries(m: map<(int, int), BoardItem>, x: int, y: int, item: BoardItem)
    requires !(0 <= x < BoardWidth && 0 <= y < BoardWidth)
    ensures Grid(m[(x, y) := item]) == Grid(m)
  {
    var g, h := Grid(m[(x, y) := item]), Grid(m);
    forall i | 0 <= i < |g|
      ensures g[i] == h[i]
    {
      assert (i % BoardWidth, i / BoardWidth) != (x, y);
    }
  }

  /** A fully placed board, every cell carrying a tile whose id resolves, shows no empty cell. */
  lemma FullBoardHasNoEmptyCell(m: map<(int, int), BoardItem>, tiles: seq<Tile>, items: seq<BoardItem>)
    requires DescribesTiles(m, tiles, items)
    requires forall x, y :: 0 <= x < BoardWidth && 0 <= y < BoardWidth ==> Placed(tiles, items, x, y)
    ensures forall c :: c in Grid(m) ==> c.item.Some? && CellText(c) == c.item.value.body
  {
    var g := Grid(m);
    forall c | c in g
      ensures c.item.Some?
    {
      var i :| 0 <= i < |g| && g[i] == c;
      assert Placed(tiles, items, i % BoardWidth, i / BoardWidth);
      assert LastResolvedAt(tiles, items, i % BoardWidth, i / BoardWidth).Some?;
    }
  }

  /** A cell with no tile whose id resolves shows "Empty" and is not checked. */
  lemma UnplacedCellIsEmpty(m: map<(int, int), BoardItem>, tiles: seq<Tile>, items: seq<BoardItem>, x: int, y: int)
    requires DescribesTiles(m, tiles, items)
    requires 0 <= x < BoardWidth && 0 <= y < BoardWidth
    requires forall j :: 0 <= j < |tiles| ==> !PlacedAt(tiles, items, j, x, y)
    ensures var c := Grid(m)[y * BoardWidth + x];
            c.x == x && c.y == y && CellText(c) == "Empty" && !CellChecked(c)
  {
    var i := y * BoardWidth + x;
    assert i % BoardWidth == x && i / BoardWidth == y;
    assert LastResolvedAt(tiles, items, x, y).None?;
  }

  datatype Call = CastCheckOffVote(gameSessionId: int, itemId: int)

  /** `handleTileClick`: the reducer calls a click on a cell issues. */
  function HandleTileClick(gameSessionId: int, item: Option<BoardItem>): (calls: seq<Call>)
    ensures item.None? ==> calls == []
    ensures item.Some? ==> calls == [CastCheckOffVote(gameSessionId, item.value.id)]
  {
    if item.Some? then [CastCheckOffVote(gameSessionId, item.value.id)] else []
  }

  /** Clicking a grid cell votes once, for the item id of the last tile there whose id
      resolves, and votes not at all on a cell without one. */
  lemma ClickVotesForPlacedItem(m: map<(int, int), BoardItem>, tiles: seq<Tile>, items: seq<BoardItem>,
                                gameSessionId: int, i: int)
    requires DescribesTiles(m, tiles, items)
    requires 0 <= i < BoardWidth * BoardWidth
    ensures var c := Grid(m)[i];
            var calls := HandleTileClick(gameSessionId, c.item);
            && |calls| <= 1
            && (|calls| == 1 <==> exists j :: 0 <= j < |tiles| && PlacedAt(tiles, items, j, c.x, c.y))
            && (|calls| == 1 ==> exists j :: 0 <= j < |tiles| && PlacedAt(tiles, items, j, c.x, c.y)
                                   && calls[0] == CastCheckOffVote(gameSessionId, tiles[j].id))
  {
    var c := Grid(m)[i];
    var r := LastResolvedAt(tiles, items, c.x, c.y);
    assert c.item == r;
    if r.Some? {
      LastResolvedAtIsLastPlaced(tiles, items, c.x, c.y);
      var j :| 0 <= j < |tiles| && LastPlacedAt(tiles, items, j, c.x, c.y) && r == FindItem(items, tiles[j].id);
      assert r.value.id == tiles[j].id;
    }
  }

  // ===========================================================================
  // The page.

  /** `gameSessions.find(session => session.id === gameSessionId)`. */
  function FindSession(sessions: seq<GameSession>, id: int): (r: Option<GameSession>)
    ensures r.None? <==> forall i :: 0 <= i < |sessions| ==> sessions[i].id != id
    ensures r.Some? ==> r.value in sessions && r.value.id == id
  {
    FindFirst(sessions, (session: GameSession) => session.id == id)
  }

  datatype GameView =
    | SessionNotFound
    | Game(name: string, players: seq<Player>, grid: Option<seq<Cell>>, winner: Option<string>)

  /** The game page: "not found" without the session; otherwise its name, its players,
      the grid once the board is tracked ("Loading" before), and the winner banner. */
  method RenderGame(sessions: seq<GameSession>, gameSessionId: int, memberships: seq<PlayerSession>,
                    players: map<string, Player>, board: Option<BingoBoard>) returns (v: GameView)
    ensures v.SessionNotFound? <==> forall i :: 0 <= i < |sessions| ==> sessions[i].id != gameSessionId
    ensures v.Game? ==> exists s :: s in sessions && s.id == gameSessionId && v.name == s.name
    ensures v.Game? ==> v.players == PlayersInGame(memberships, players, gameSessionId)
    ensures v.Game? ==> (v.grid.None? <==> board.None?)
    ensures v.Game? && v.grid.Some? ==>
              && |v.grid.value| == BoardWidth * BoardWidth
              && forall i :: 0 <= i < |v.grid.value| ==>
                   && v.grid.value[i].x == i % BoardWidth && v.grid.value[i].y == i / BoardWidth
                   && v.grid.value[i].item == LastResolvedAt(board.value.bingoItemTiles,
                                                             FindSession(sessions, gameSessionId).value.boardItems,
                                                             i % BoardWidth, i / BoardWidth)
    ensures v.Game? ==> (v.winner.Some? <==> FindSession(sessions, gameSessionId).value.winner.Some?)
    ensures v.Game? && v.winner.Some? ==>
              var hex := ToHex(FindSession(sessions, gameSessionId).value.winner.value);
              && v.winner.value != ""
              && (App.CachedName(players, hex) != "" ==> v.winner.value == players[hex].name.value)
              && (App.CachedName(players, hex) == "" ==> v.winner.value == "Unknown")
  {
    var session := FindSession(sessions, gameSessionId);
    if session.None? {
      return SessionNotFound;
    }
    var s := session.value;
    var inGame := PlayersInGame(memberships, players, gameSessionId);
    var m := BuildBoardItemsMap(board, s.boardItems);
    var grid := if board.Some? then Some(Grid(m)) else None;
    var winner := match s.winner
                  case Some(w) => Some(App.OrElse(App.CachedName(players, ToHex(w)), "Unknown"))
                  case None => None;
    v := Game(s.name, inGame, grid, winner);
  }
}
