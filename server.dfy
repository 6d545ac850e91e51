/** The SpacetimeDB module: its tables and the reducers that change them. Each reducer
    receives the caller's identity (`ctx.sender`) as `sender`. */
module Server {
  import opened Wrappers
  import opened Identities

  datatype Player = Player(identity: Identity, name: Option<string>, online: bool)

  datatype GameSession = GameSession(id: nat, name: string, password: Option<string>, active: bool, winner: Option<Identity>)

  datatype PlayerSession = PlayerSession(playerId: Identity, gameSessionId: nat)

  datatype BingoItem = BingoItem(id: nat, body: string)

  datatype PlayerItemSubject = PlayerItemSubject(playerId: Identity, bingoItemId: nat)

  const EmptyNameError := "Names must not be empty"
  const UnknownPlayerError := "Cannot set name for unknown player"

  /** `validate_name`: a name is acceptable exactly when it is not empty. */
  function ValidateName(name: string): (r: Result<string, string>)
    ensures r.Failure? <==> name == ""
    ensures r.Success? ==> r.value == name
    ensures r.Failure? ==> r.error == EmptyNameError
  {
    if name == "" then Failure(EmptyNameError) else Success(name)
  }

  /** `is_correct_password`: a session without a password admits everyone; one with a
      password admits exactly a submission equal to it. */
  function IsCorrectPassword(target: Option<string>, submitted: Option<string>): (ok: bool)
    ensures ok <==> target.None? || submitted == target
  {
    match target
    case Some(targetPassword) =>
      (match submitted
       case Some(submittedPassword) => targetPassword == submittedPassword
       case None => false)
    case None => true
  }

  lemma PasswordIsReflexive(p: Option<string>)
    ensures IsCorrectPassword(p, p)
  {
  }

  /** The subject rows a new item gets: one per listed identity, none for `None`. */
  function SubjectRows(subjectPlayers: Option<seq<Identity>>, bingoItemId: nat): (rows: set<PlayerItemSubject>)
    ensures subjectPlayers.None? ==> rows == {}
    ensures forall row :: row in rows <==>
              subjectPlayers.Some? && row.playerId in subjectPlayers.value && row.bingoItemId == bingoItemId
  {
    match subjectPlayers
    case None => {}
    case Some(ids) => set id | id in ids :: PlayerItemSubject(id, bingoItemId)
  }

  /** The tables. Tables without a primary key are sets of rows; auto-increment ids are
      drawn from a counter that only grows. */
  class Database {
    var player: map<Identity, Player>
    var gameSession: map<nat, GameSession>
    var playerSession: set<PlayerSession>
    var bingoItem: map<nat, BingoItem>
    var playerItemSubject: set<PlayerItemSubject>
    var nextGameSessionId: nat
    var nextBingoItemId: nat

    /** Rows sit under their primary key, and every used id is below the counter. */
    ghost predicate Valid()
      reads this
    {
      && (forall id :: id in player ==> player[id].identity == id)
      && (forall id :: id in gameSession ==> gameSession[id].id == id && id < nextGameSessionId)
      && (forall id :: id in bingoItem ==> bingoItem[id].id == id && id < nextBingoItemId)
    }

    constructor ()
      ensures Valid()
      ensures player == map[] && gameSession == map[] && playerSession == {}
      ensures bingoItem == map[] && playerItemSubject == {}
    {
      player, gameSession, playerSession := map[], map[], {};
      bingoItem, playerItemSubject := map[], {};
      nextGameSessionId, nextBingoItemId := 1, 1;
    }

    /** `set_name`: validates first, then renames the caller's row; nothing else changes. */
    method SetName(sender: Identity, name: string) returns (r: Result<(), string>)
      requires Valid()
      modifies this`player
      ensures Valid()
      ensures name == "" ==> r == Failure(EmptyNameError) && player == old(player)
      ensures name != "" && sender !in old(player) ==> r == Failure(UnknownPlayerError) && player == old(player)
      ensures name != "" && sender in old(player) ==>
                && r == Success(())
                && player.Keys == old(player).Keys
                && player[sender] == old(player)[sender].(name := Some(name))
                && forall id :: id in player && id != sender ==> player[id] == old(player)[id]
    {
      var validated := ValidateName(name);
      if validated.Failure? {
        return Failure(validated.error);
      }
      if sender in player {
        var row := player[sender];
        player := player[sender := row.(name := Some(validated.value))];
        r := Success(());
      } else {
        r := Failure(UnknownPlayerError);
      }
    }

    /** `join_game`: always succeeds; the caller becomes a member only of an existing
        session whose password check passes. */
    method JoinGame(sender: Identity, gameSessionId: nat, password: Option<string>) returns (r: Result<(), string>)
      requires Valid()
      modifies this`playerSession
      ensures Valid()
      ensures r == Success(())
      ensures var admitted := gameSessionId in gameSession
                              && IsCorrectPassword(gameSession[gameSessionId].password, password);
              playerSession == if admitted then old(playerSession) + {PlayerSession(sender, gameSessionId)}
                               else old(playerSession)
    {
      if gameSessionId in gameSession {
        var session := gameSession[gameSessionId];
        if IsCorrectPassword(session.password, password) {
          playerSession := playerSession + {PlayerSession(sender, gameSessionId)};
        }
      }
      r := Success(());
    }

    /** `start_new_game`: with a valid name, inserts an active session without a winner
        under a fresh id and makes the caller a member of it. */
    method StartNewGame(sender: Identity, name: string, password: Option<string>) returns (r: Result<(), string>)
      requires Valid()
      modifies this`gameSession, this`nextGameSessionId, this`playerSession
      ensures Valid()
      ensures name == "" ==> && r == Failure(EmptyNameError)
                             && gameSession == old(gameSession) && playerSession == old(playerSession)
                             && nextGameSessionId == old(nextGameSessionId)
      ensures name != "" ==>
                var id := old(nextGameSessionId);
                && r == Success(())
                && id !in old(gameSession)
                && gameSession == old(gameSession)[id := GameSession(id, name, password, true, None)]
                && nextGameSessionId == id + 1
                && playerSession == old(playerSession) + {PlayerSession(sender, id)}
    {
      var validated := ValidateName(name);
      if validated.Failure? {
        return Failure(validated.error);
      }
      var id := nextGameSessionId;
      gameSession := gameSession[id := GameSession(id, validated.value, password, true, None)];
      nextGameSessionId := nextGameSessionId + 1;
      PasswordIsReflexive(password);
      r := JoinGame(sender, id, password);
    }

    /** `submit_new_bingo_item`: inserts the item under a fresh id, then one subject row
        per listed identity. */
    method SubmitNewBingoItem(body: string, subjectPlayers: Option<seq<Identity>>) returns (r: Result<(), string>)
      requires Valid()
      modifies this`bingoItem, this`nextBingoItemId, this`playerItemSubject
      ensures Valid()
      ensures r == Success(())
      ensures var id := old(nextBingoItemId);
              && id !in old(bingoItem)
              && bingoItem == old(bingoItem)[id := BingoItem(id, body)]
              && nextBingoItemId == id + 1
              && playerItemSubject == old(playerItemSubject) + SubjectRows(subjectPlayers, id)
    {
      var id := nextBingoItemId;
      bingoItem := bingoItem[id := BingoItem(id, body)];
      nextBingoItemId := nextBingoItemId + 1;
      if subjectPlayers.Some? {
        var ids := subjectPlayers.value;
        for i := 0 to |ids|
          modifies this`playerItemSubject
          invariant playerItemSubject == old(playerItemSubject) + set j | 0 <= j < i :: PlayerItemSubject(ids[j], id)
        {
          playerItemSubject := playerItemSubject + {PlayerItemSubject(ids[i], id)};
        }
      }
      r := Success(());
    }

    /** `delete_bingo_item`: removes the item's subject rows, then the item; succeeds also
        for an id that is not there. */
    method DeleteBingoItem(bingoItemId: nat) returns (r: Result<(), string>)
      requires Valid()
      modifies this`bingoItem, this`playerItemSubject
      ensures Valid()
      ensures r == Success(())
      ensures bingoItemId !in bingoItem
      ensures forall id :: id != bingoItemId ==> (id in bingoItem <==> id in old(bingoItem))
      ensures forall id :: id in bingoItem ==> bingoItem[id] == old(bingoItem)[id]
      ensures forall row :: row in playerItemSubject <==> row in old(playerItemSubject) && row.bingoItemId != bingoItemId
    {
      playerItemSubject := set row | row in playerItemSubject && row.bingoItemId != bingoItemId;
      bingoItem := bingoItem - {bingoItemId};
      r := Success(());
    }
  }
}
