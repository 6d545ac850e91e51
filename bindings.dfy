/** The row types the web client reads from its SpacetimeDB client cache, with the
    fields the client code uses.  Numbers are JavaScript numbers, modelled as `int`. */
module Bindings {
  import opened Wrappers
  import opened Identities

  /** A `player` row; `name` is optional on the server and `string | undefined` here. */
  datatype Player = Player(identity: Identity, name: Option<string>, online: bool)

  /** A `player_session` membership row. */
  datatype PlayerSession = PlayerSession(playerId: Identity, gameSessionId: int)

  /** One tile placement of a board: an item id at cell (x, y). */
  datatype Tile = Tile(id: int, x: int, y: int)

  /** A per-session item instance, as the client reads it from `gameSession.boardItems`. */
  datatype BoardItem = BoardItem(id: int, body: string, checked: bool)

  /** A `bingo_board` row, as the client reads it (`bingoItemTiles`). */
  datatype BingoBoard = BingoBoard(playerId: Identity, gameSessionId: int, bingoItemTiles: seq<Tile>)

  /** A `game_session` row, as the client reads it. */
  datatype GameSession = GameSession(id: int, name: string, boardItems: seq<BoardItem>, winner: Option<Identity>)
}
