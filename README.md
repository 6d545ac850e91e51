# Deployment Bingo — a Dafny model of the client sync core and the server reducers

Deployment Bingo is a multiplayer bingo game on SpacetimeDB. The web client mirrors the
server's tables in memory. It does this by applying the insert, update and delete events
the server pushes, and it builds the game page from those mirrors. The server module
changes its tables through reducers.

This project models four parts of that system in Dafny:

- **The player mirror** (`App`, from `client/src/App.tsx`). `usePlayers` keeps a map from
  each player's identity hex string to the player's row. It is a class whose three
  handlers change the map in place. The model proves that the map stays an exact mirror
  of the server's `player` table under inserts, updates (including updates that change
  the key) and deletes. That proof rests on the injectivity of the hex encoding
  (`Identities`). The profile's display-name fallback and the "Connecting..." guard are
  modelled as functions.
- **The game page** (`BingoGame`, from `client/src/BingoGame.tsx`).
  - `useBingoBoard` follows one (player, session) board. It scans the cache with a loop
    that stops at the first match, then follows the insert, update and delete events.
  - The lenient join lists the players of a session.
  - The tile list is folded into a coordinate→item map.
  - The map becomes a dense 5×5 row-major grid.
  - A click on a cell casts a check-off vote.
- **The sign-up page** (`SignupPage`, from `client/src/SignupPage.tsx`). It models the
  ordered guards of `handleSubmit`, the submit-disabled predicate, and the chain of
  one-shot reducer callbacks: invite used, then player created, then signed in, then
  success.
- **The server reducers** (`Server`, from `server/src/lib.rs`). These are `validate_name`,
  `is_correct_password`, `set_name`, `start_new_game`, `join_game`,
  `submit_new_bingo_item` and `delete_bingo_item`. They run over a `Database` class that
  holds the tables and two auto-increment counters.

Some things the code does not require or promise, which the model keeps as the code has
them:

- **Stale board.** When `useBingoBoard` re-subscribes for a new pair and the cache holds no
  board for it, the previously tracked board is kept (`BingoGame.BoardTracker.Subscribe`).
- **Session id 0.** It is falsy, so it is never tracked.
- **Sign-up callback order.** All three sign-up callbacks are registered at submit time.
  The order of the calls therefore follows the order in which the completions arrive
  (`SignupPage.CompletionsOutOfOrder`).
- **Board invariant.** The client reads `bingoItemTiles` from boards and `boardItems` from
  sessions, while the server schema has `bingo_items: Vec<Vec<BoardItem>>` and no board
  items on `GameSession`. Each side is modelled from its own code. The invariant that a
  loaded board has exactly 25 placements with distinct in-range coordinates is not
  enforced by the client code, so the model accepts any tile list. It proves the grid
  properties for the full-board case and for the partial-board case separately.

Modelling choices:

- An `Identity` is its byte string. `toHexString()` is two lower-case hex digits per byte,
  in byte order.
- The client's string key `` `${x}-${y}` `` is injective on integer coordinates, so it is
  modelled as the pair `(x, y)`.
- Remote calls (reducers and the parent's success callback) are recorded in order in a
  `calls` sequence.
- Event deliveries are explicit method calls in the order the caller chooses.
- A reducer call that throws is an input flag (`callThrows`).

## Model

| member | source | states |
|---|---|---|
| `Identities.ToHex` | client/src/App.tsx:22 | an identity's hex key has two digits per byte |
| `Identities.ToHexInjective` | client/src/App.tsx:22 | equal hex keys mean equal identities, so the cache holds one row per identity |
| `Identities.ToHexPrefix` | client/src/App.tsx:126 | the first 2n hex digits are the hex of the first n bytes |
| `App.KeyInjective` | client/src/App.tsx:22 | two player rows share a cache key exactly when they share an identity |
| `App.Inserted` | client/src/App.tsx:21-23 | after an insert the row is at its key, the key set gains that key, and all other entries are unchanged |
| `App.Updated` | client/src/App.tsx:26-31 | after an update the old key is removed, the new row is at its own key, and all other entries are unchanged |
| `App.Deleted` | client/src/App.tsx:34-39 | after a delete the key is gone and every remaining entry is unchanged |
| `App.InsertIdempotent` | client/src/App.tsx:22 | applying the same insert twice equals applying it once |
| `App.UpdateRekeys` | client/src/App.tsx:28-29 | when the identities differ, the old key is absent afterwards and the new key holds the new row |
| `App.UpdateSameKey` | client/src/App.tsx:28-29 | when old and new keys coincide, an update is an overwrite with the new row |
| `App.DeleteAbsentIsNoOp` | client/src/App.tsx:36-37 | deleting an absent key leaves the map unchanged |
| `App.InsertKeepsMirror` | client/src/App.tsx:21-24 | if the cache mirrors the server table, it still mirrors it after the same insert on both sides |
| `App.UpdateKeepsMirror` | client/src/App.tsx:26-32 | if the cache mirrors the server table, it still mirrors it after the update, also when the key changes |
| `App.DeleteKeepsMirror` | client/src/App.tsx:34-40 | if the cache mirrors the server table, it still mirrors it after the delete |
| `App.PlayerCache.constructor` | client/src/App.tsx:17 | the cache starts empty and well-keyed |
| `App.PlayerCache.OnInsert` | client/src/App.tsx:21-23 | the map becomes `Inserted(old map, row)` and every row stays under its own key |
| `App.PlayerCache.OnUpdate` | client/src/App.tsx:26-31 | the map becomes `Updated(old map, old row, new row)` and stays well-keyed |
| `App.PlayerCache.OnDelete` | client/src/App.tsx:34-39 | the map becomes `Deleted(old map, row)` and stays well-keyed |
| `App.Substring` | client/src/App.tsx:126 | `substring(0, n)` is a prefix of length min(n, length) |
| `App.DisplayName` | client/src/App.tsx:124-127 | `||` is `App.OrElse` and the cached name `App.CachedName`. The name is never empty. It is the cached non-empty name if there is one, else the first 8 hex digits for a non-empty identity, else "unknown" |
| `App.FallbackNameIsFirstFourBytes` | client/src/App.tsx:124-127 | without a cached name, an identity of 4 or more bytes shows the 8-digit hex of its first 4 bytes and never "unknown" |
| `App.Render` | client/src/App.tsx:116-127 | the profile is shown exactly when connection, connected flag and identity are all present, and it carries the display name; otherwise "Connecting..." |
| `Sequences.FindFirst` | client/src/BingoGame.tsx:86 | `find` returns nothing iff no element matches; otherwise it returns a matching element with none matching before it |
| `BingoGame.MatchesMeansSamePair` | client/src/BingoGame.tsx:23 | the handlers' hex comparison holds exactly when the board's player and session equal the tracked pair |
| `BingoGame.ScanCache` | client/src/BingoGame.tsx:22-27 | the loop with `break` yields the first cached board that matches the pair, or none |
| `BingoGame.Track` | client/src/BingoGame.tsx:29-51 | an event whose tested row is for another pair changes nothing. For the pair, an insert or update tracks the row and a delete clears the board |
| `BingoGame.UpdateTestsOnlyNewRow` | client/src/BingoGame.tsx:36-43 | an update acts exactly as an insert of its new row, whatever the old row is |
| `BingoGame.TrackAllIgnoresOtherPairs` | client/src/BingoGame.tsx:29-51 | any sequence of events about other pairs leaves the tracked board unchanged |
| `BingoGame.LastMatchingEventDecides` | client/src/BingoGame.tsx:29-51 | after any history, the tracked board is the row of the last insert or update for the pair, or none if that last event was a delete |
| `BingoGame.TrackAllKeepsPair` | client/src/BingoGame.tsx:29-51 | a tracked board of the pair stays a board of the pair through any events |
| `BingoGame.BoardTracker.constructor` | client/src/BingoGame.tsx:16 | the board starts null and no handlers are registered |
| `BingoGame.BoardTracker.Subscribe` | client/src/BingoGame.tsx:18-51 | listening is `BingoGame.Armed`: without a connection, a player or a truthy session id (0 is falsy), nothing is registered and the board is unchanged. Otherwise the first matching cached board, if any, becomes the board, and the handlers listen for the pair |
| `BingoGame.BoardTracker.OnInsert` | client/src/BingoGame.tsx:29-33 | while listening, the board becomes `Track(board, insert)`; otherwise unchanged |
| `BingoGame.BoardTracker.OnUpdate` | client/src/BingoGame.tsx:36-43 | while listening, the board becomes `Track(board, update)`; otherwise unchanged |
| `BingoGame.BoardTracker.OnDelete` | client/src/BingoGame.tsx:46-50 | while listening, the board becomes `Track(board, delete)`; otherwise unchanged |
| `BingoGame.SessionRows` | client/src/BingoGame.tsx:78 | the filter keeps exactly the membership rows of the session |
| `BingoGame.LookUp` | client/src/BingoGame.tsx:79 | one lookup result per membership row, each the row's cached player (`BingoGame.Resolve`) |
| `BingoGame.Defined` | client/src/BingoGame.tsx:80 | keeps exactly the found players |
| `BingoGame.PlayersInGame` | client/src/BingoGame.tsx:77-80 | at most one player per membership row of the session |
| `BingoGame.PlayersInGameMembers` | client/src/BingoGame.tsx:77-80 | a player is listed iff some membership row of the session resolves to it (both directions) |
| `BingoGame.PlayersInGameAppend` | client/src/BingoGame.tsx:77-80 | row order is kept: the join of a concatenation is the concatenation of the joins |
| `BingoGame.PlayersInGameOfOne` | client/src/BingoGame.tsx:77-80 | a single row contributes its player exactly when it is for the session and the player is cached, and nothing otherwise |
| `BingoGame.DanglingRowIsDropped` | client/src/BingoGame.tsx:79-80 | a row whose player is not cached contributes nothing, wherever it sits |
| `BingoGame.AllResolvedShowsEveryMember` | client/src/BingoGame.tsx:77-80 | when every row of the session resolves, exactly one player is listed per row, in row order (`BingoGame.ShowsEachRow`) |
| `BingoGame.FindItem` | client/src/BingoGame.tsx:86 | finds an item exactly when the session has one with that id, and returns the FIRST item of the session with that id (item ids need not be distinct) |
| `BingoGame.LastResolvedAt` | client/src/BingoGame.tsx:83-91 | a coordinate has an item iff some tile there has an id that resolves |
| `BingoGame.LastResolvedAtIsLastPlaced` | client/src/BingoGame.tsx:85-89 | the item at a coordinate is the first session item with the id of a tile there, and no later tile there resolves |
| `BingoGame.BuildBoardItemsMap` | client/src/BingoGame.tsx:83-91 | with no board the map is empty. Otherwise, at every coordinate it holds the item of the last resolving tile there, and nothing where no tile resolves |
| `BingoGame.Grid` | client/src/BingoGame.tsx:129-144 | 25 cells, rows joined by `BingoGame.Flatten` as `.flat()` does; cell i is at x = i mod 5, y = i div 5 (y outer, x inner) and holds the map's entry there or nothing |
| `BingoGame.GridIgnoresOutsideEntries` | client/src/BingoGame.tsx:129-131 | a map entry at a coordinate outside 0..4 never changes the grid |
| `BingoGame.FullBoardHasNoEmptyCell` | client/src/BingoGame.tsx:129-139 | if every one of the 25 cells carries a resolving tile, no cell is empty and each shows its item's body |
| `BingoGame.UnplacedCellIsEmpty` | client/src/BingoGame.tsx:131-139 | a cell without a resolving tile shows "Empty" (`BingoGame.CellText`) and is not checked (`BingoGame.CellChecked`) |
| `BingoGame.HandleTileClick` | client/src/BingoGame.tsx:93-98 | no call for an empty cell; exactly one `castCheckOffVote(gameSessionId, item.id)` for a cell with an item |
| `BingoGame.ClickVotesForPlacedItem` | client/src/BingoGame.tsx:93-98 | clicking a grid cell issues at most one vote. It votes iff a resolving tile lies at that cell, and the vote names the id of such a tile |
| `BingoGame.FindSession` | client/src/BingoGame.tsx:64 | finds a session exactly when one has the id |
| `BingoGame.RenderGame` | client/src/BingoGame.tsx:63-153 | "not found" iff no session has the id. Otherwise it shows the session's name, `PlayersInGame`, and a grid iff a board is tracked, each cell holding the last resolving tile's item. A winner banner appears iff the session has a winner; it shows the winner's cached non-empty name (`App.CachedName`), else "Unknown" (`App.OrElse`) |
| `SignupPage.SubmitError` | client/src/SignupPage.tsx:71-84 | a missing connection is reported first, whatever the passwords. A mismatch is reported before the length check. The submit passes only with equal passwords of at least 4 characters |
| `SignupPage.SubmitDisabled` | client/src/SignupPage.tsx:202 | the button is enabled iff not loading and name, password and confirmation are all non-empty |
| `SignupPage.AcceptedPasswordsAreNonEmpty` | client/src/SignupPage.tsx:76-84 | passwords the guards accept never disable the button by being empty |
| `SignupPage.RenderPage` | client/src/SignupPage.tsx:129-142 | redirect with an empty render iff the token is absent or empty (`?token=` is falsy too); "Connecting..." iff a non-empty token but no connection; otherwise the form |
| `SignupPage.SignupForm.constructor` | client/src/SignupPage.tsx:13-28 | the form starts empty, not loading, without error and not connected. A connection object is built iff the token is non-empty (an empty token only redirects) |
| `SignupPage.SignupForm.OnConnect` | client/src/SignupPage.tsx:31-40 | the page becomes connected |
| `SignupPage.SignupForm.OnDisconnect` | client/src/SignupPage.tsx:42-45 | the page becomes disconnected |
| `SignupPage.SignupForm.OnConnectError` | client/src/SignupPage.tsx:47-50 | the connection-failure message is set |
| `SignupPage.SignupForm.HandleSubmit` | client/src/SignupPage.tsx:68-127 | a failing guard sets its error and changes nothing else. If the reducer call throws, "Signup failed" is set and loading is cleared. Otherwise loading is set, the error cleared, `usePlayerInvite(token)` issued, and one handler of each kind registered with the captured name and password |
| `SignupPage.SignupForm.InviteUsed` | client/src/SignupPage.tsx:94-98 | each registered invite handler issues `createPlayer(name, password)` once and is removed |
| `SignupPage.SignupForm.PlayerCreated` | client/src/SignupPage.tsx:101-107 | each registered create handler issues `signIn(name, password)` once and is removed |
| `SignupPage.SignupForm.SignedIn` | client/src/SignupPage.tsx:110-116 | each registered sign-in handler reports success once and is removed |
| `SignupPage.SignupInOrder` | client/src/SignupPage.tsx:86-120 | for a non-empty token, an accepted submit followed by the completions in order issues exactly invite, create, sign-in and success. Repeated completions add nothing |
| `SignupPage.CompletionsOutOfOrder` | client/src/SignupPage.tsx:94-120 | for a non-empty token, a create completion that arrives before the invite completion signs in before creating the player |
| `SignupPage.SubmitWhileConnecting` | client/src/SignupPage.tsx:71-74 | a submit without a connection sets "Not connected" and issues nothing |
| `Server.ValidateName` | server/src/lib.rs:96-102 | Err ("Names must not be empty") exactly for the empty name; every other name comes back unchanged |
| `Server.IsCorrectPassword` | server/src/lib.rs:129-139 | accepted iff the session has no password or the submission equals it (so no submission fails a set password) |
| `Server.PasswordIsReflexive` | server/src/lib.rs:129-139 | submitting a session's own password always passes |
| `Server.SubjectRows` | server/src/lib.rs:148-152 | one subject row per listed identity, all pointing at the item; none for `None` |
| `Server.Database.constructor` | server/src/lib.rs:3-46 | all tables start empty |
| `Server.Database.SetName` | server/src/lib.rs:85-93 | an empty name gives Err with no change, and then an unknown sender gives Err with no change. Otherwise only the sender's name changes; identity, online flag and all other rows are kept |
| `Server.Database.JoinGame` | server/src/lib.rs:118-127 | always Ok. It adds the (sender, session) row exactly when the session exists and the password check passes; otherwise nothing changes |
| `Server.Database.StartNewGame` | server/src/lib.rs:107-115 | an empty name gives Err and changes nothing, the id counter included. Otherwise the counter grows by one and it inserts one active session without a winner under a fresh id, and the caller becomes a member of it |
| `Server.Database.SubmitNewBingoItem` | server/src/lib.rs:146-155 | the id counter grows by one; inserts one item under the fresh id and exactly the subject rows for the listed identities |
| `Server.Database.DeleteBingoItem` | server/src/lib.rs:158-164 | always Ok. Afterwards no item and no subject row has the id, and all other items and rows are kept |

## Left out

- The rest of the repository is not part of this model:
  - `server/src/password.rs` (Argon2 hashing with a random salt, a foreign library plus
    randomness);
  - the generated SDK bindings under `client/src/module_bindings/`;
  - the static markup of `yew-client/src/main.rs`.
- The reducers the client calls but that are not in `lib.rs` (`usePlayerInvite`,
  `createPlayer`, `signIn`, `castCheckOffVote`) are recorded as calls only. Their effects
  are not modelled.
- Rendering is not modelled: JSX markup, CSS classes, routing and `navigate`, the form
  `onChange` wiring, the name-editing form (`App.tsx:129-133`), the message panel and the
  player list's per-row name text. These are presentation and input plumbing. The page
  models above keep only what is decided: which view appears, which items the cells
  hold, and the winner name.
- `BingoGame.BoardTracker.Subscribe`: the effect cleanup at `BingoGame.tsx:53-57` appears
  only as "the old handlers no longer listen" when the tracker re-subscribes.
- `App.PlayerCache`: the cleanup at `App.tsx:42-46`, which unregisters the handlers, is not
  modelled. The cache subscribes once and is never torn down or re-subscribed.
- `App.PlayerCache`: the handlers mutate `prev` in place (`prev.set`, `prev.delete`) before
  copying it (`App.tsx:22, 28, 36`). `prev` is the Map the previous render returned, so a
  snapshot of it held elsewhere changes too. The model's `map` is a value, so this aliasing
  is not captured; only the new contents are.
- `SignupPage.SignupForm`: the cleanup at `SignupPage.tsx:63-65`, which disconnects on
  unmount, is not modelled. There is no unmount operation.
- The connection builder, the WebSocket URI, `localStorage` and logging are I/O.
- Asynchronous delivery is not modelled as concurrency. Each event or completion is a
  method call in an order the caller picks.
- JavaScript `Map` iteration order is not modelled. The players map is a Dafny `map`,
  and nothing in the core iterates over it.
- The bingo-board cache is given as a sequence in iteration order.
- `SignupPage.SubmitError`: the 4-character minimum counts UTF-16 code units in JavaScript
  and characters in the model; the two agree when every character lies in the Basic
  Multilingual Plane.
- `App.Substring`: JavaScript string length counts UTF-16 code units, while Dafny counts
  characters. This does not matter for the 8-digit prefix, because a hex string is ASCII.
- `BingoGame.Armed`: a `NaN` session id (also falsy in JavaScript) is not modelled.
  Session ids are integers here.
- `Server.Database.StartNewGame`: SpacetimeDB's exact auto-increment scheme and u32 id
  overflow are not modelled. Fresh ids come from a counter that only grows.
- Transaction rollback is not modelled. Every reducer here that fails does so before it
  changes any table, so rollback changes nothing.
- Tables without a primary key (`player_session`, `player_item_subject`) are sets of
  rows. Their btree indexes are not modelled.
- The server's `bingo_board` and `item_check_vote` tables exist only as declarations:
  `lib.rs` has no reducer that writes them. Vote counting, check-off resolution and
  winner determination are a TODO there, so none of them is modelled.
- There is no session paginator and no identity-reassignment watch in the code, so
  neither is modelled.
