/** The top-level client component: the mirrored `player` table (`usePlayers`), the
    profile display name and the "Connecting..." guard. */
module App {
  import opened Wrappers
  import opened Identities
  import opened Bindings

  /** The cache key of a player row: `player.identity.toHexString()`. */
  function Key(p: Player): string
  {
    ToHex(p.identity)
  }

  lemma KeyInjective(p: Player, q: Player)
    ensures Key(p) == Key(q) <==> p.identity == q.identity
  {
    ToHexInjective(p.identity, q.identity);
  }

  // ---------------------------------------------------------------------------
  // The three change events, as functions of the map before the event.

  /** The map after an insert event: the row is stored under its key, overwriting. */
  function Inserted(m: map<string, Player>, p: Player): (r: map<string, Player>)
    ensures r.Keys == m.Keys + {Key(p)}
    ensures r[Key(p)] == p
    ensures forall k :: k in m && k != Key(p) ==> r[k] == m[k]
  {
    m[Key(p) := p]
  }

  /** The map after an update event: the old row's key is removed, then the new row is
      stored under its own key. */
  function Updated(m: map<string, Player>, oldRow: Player, newRow: Player): (r: map<string, Player>)
    ensures r.Keys == (m.Keys - {Key(oldRow)}) + {Key(newRow)}
    ensures r[Key(newRow)] == newRow
    ensures forall k :: k in m && k != Key(oldRow) && k != Key(newRow) ==> r[k] == m[k]
  {
    (m - {Key(oldRow)})[Key(newRow) := newRow]
  }

  /** The map after a delete event: the row's key is removed if present. */
  function Deleted(m: map<string, Player>, p: Player): (r: map<string, Player>)
    ensures r.Keys == m.Keys - {Key(p)}
    ensures forall k :: k in r ==> r[k] == m[k]
  {
    m - {Key(p)}
  }

  lemma InsertIdempotent(m: map<string, Player>, p: Player)
    ensures Inserted(Inserted(m, p), p) == Inserted(m, p)
  {
  }

  lemma UpdateRekeys(m: map<string, Player>, oldRow: Player, newRow: Player)
    requires oldRow.identity != newRow.identity
    ensures Key(oldRow) !in Updated(m, oldRow, newRow)
    ensures Updated(m, oldRow, newRow)[Key(newRow)] == newRow
  {
    KeyInjective(oldRow, newRow);
  }

  lemma UpdateSameKey(m: map<string, Player>, oldRow: Player, newRow: Player)
    requires Key(oldRow) == Key(newRow)
    ensures Updated(m, oldRow, newRow) == m[Key(newRow) := newRow]
  {
  }

  lemma DeleteAbsentIsNoOp(m: map<string, Player>, p: Player)
    requires Key(p) !in m
    ensures Deleted(m, p) == m
  {
  }

  // ---------------------------------------------------------------------------
  // The cache as a mirror of the server's `player` table.

  /** Every row of the table is in the cache, under the hex of its identity. */
  ghost predicate Covers(cache: map<string, Player>, table: map<Identity, Player>)
  {
    forall id :: id in table ==> ToHex(id) in cache && cache[ToHex(id)] == table[id]
  }

  /** Every key of the cache is the hex of some identity in the table. */
  ghost predicate NoStrayKeys(cache: map<string, Player>, table: map<Identity, Player>)
  {
    forall k :: k in cache ==> exists id :: id in table && ToHex(id) == k
  }

  /** The cache holds exactly the table's rows, each under the hex of its identity. */
  ghost predicate Mirrors(cache: map<string, Player>, table: map<Identity, Player>)
  {
    Covers(cache, table) && NoStrayKeys(cache, table)
  }

  /** An insert on the server keeps the cache a mirror once the insert event is applied. */
  lemma InsertKeepsMirror(cache: map<string, Player>, table: map<Identity, Player>, p: Player)
    requires Mirrors(cache, table)
    ensures Mirrors(Inserted(cache, p), table[p.identity := p])
  {
    var c, t := Inserted(cache, p), table[p.identity := p];
    forall id | id in t
      ensures ToHex(id) in c && c[ToHex(id)] == t[id]
    {
      if id != p.identity {
        ToHexInjective(id, p.identity);
        assert t[id] == table[id];
      }
    }
    assert Covers(c, t);
    forall k | k in c
      ensures exists id :: id in t && ToHex(id) == k
    {
      if k == Key(p) {
        assert p.identity in t;
      } else {
        var id :| id in table && ToHex(id) == k;
        assert id in t;
      }
    }
    assert NoStrayKeys(c, t);
  }

  /** An update on the server (the row at `oldRow`'s identity replaced by `newRow`) keeps
      the cache a mirror once the update event is applied, also when the key changes. */
  lemma UpdateKeepsMirror(cache: map<string, Player>, table: map<Identity, Player>, oldRow: Player, newRow: Player)
    requires Mirrors(cache, table)
    ensures Mirrors(Updated(cache, oldRow, newRow), (table - {oldRow.identity})[newRow.identity := newRow])
  {
    var c, t := Updated(cache, oldRow, newRow), (table - {oldRow.identity})[newRow.identity := newRow];
    forall id | id in t
      ensures ToHex(id) in c && c[ToHex(id)] == t[id]
    {
      if id != newRow.identity {
        ToHexInjective(id, newRow.identity);
        ToHexInjective(id, oldRow.identity);
        assert id in table && t[id] == table[id];
      }
    }
    assert Covers(c, t);
    forall k | k in c
      ensures exists id :: id in t && ToHex(id) == k
    {
      if k == Key(newRow) {
        assert newRow.identity in t;
      } else {
        var id :| id in table && ToHex(id) == k;
        assert id != oldRow.identity;
        assert id in t;
      }
    }
    assert NoStrayKeys(c, t);
  }

  /** A delete on the server keeps the cache a mirror once the delete event is applied. */
  lemma DeleteKeepsMirror(cache: map<string, Player>, table: map<Identity, Player>, p: Player)
    requires Mirrors(cache, table)
    ensures Mirrors(Deleted(cache, p), table - {p.identity})
  {
    var c, t := Deleted(cache, p), table - {p.identity};
    forall id | id in t
      ensures ToHex(id) in c && c[ToHex(id)] == t[id]
    {
      ToHexInjective(id, p.identity);
    }
    assert Covers(c, t);
    forall k | k in c
      ensures exists id :: id in t && ToHex(id) == k
    {
      var id :| id in table && ToHex(id) == k;
      assert id != p.identity;
      assert id in t;
    }
    assert NoStrayKeys(c, t);
  }

  /** `usePlayers`: the client-side mirror of the `player` table, a map from the hex of
      each identity to the row, changed in place by the three event handlers. */
  class PlayerCache {
    var players: map<string, Player>

    /** Every row is stored under its own key. */
    ghost predicate Valid()
      reads this
    {
      forall k :: k in players ==> Key(players[k]) == k
    }

    constructor ()
      ensures Valid() && players == map[]
    {
      players := map[];
    }

    method OnInsert(p: Player)
      requires Valid()
      modifies this
      ensures Valid()
      ensures players == Inserted(old(players), p)
    {
      players := players[Key(p) := p];
    }

    method OnUpdate(oldRow: Player, newRow: Player)
      requires Valid()
      modifies this
      ensures Valid()
      ensures players == Updated(old(players), oldRow, newRow)
    {
      players := players - {Key(oldRow)};
      players := players[Key(newRow) := newRow];
    }

    method OnDelete(p: Player)
      requires Valid()
      modifies this
      ensures Valid()
      ensures players == Deleted(old(players), p)
    {
      players := players - {Key(p)};
    }
  }

  // ---------------------------------------------------------------------------
  // The profile name and the connecting guard.

  /** JavaScript `a || b` on strings: `a` unless it is empty. */
  function OrElse(a: string, b: string): string
  {
    if a != "" then a else b
  }

  /** `s.substring(0, n)` for `n` at most the length or beyond it. */
  function Substring(s: string, n: nat): (r: string)
    ensures |r| == if |s| <= n then |s| else n
    ensures r <= s
  {
    if |s| <= n then s else s[..n]
  }

  /** `players.get(hex)?.name`, with `undefined` read as the empty string (both are
      falsy under `||`). */
  function CachedName(players: map<string, Player>, hex: string): string
  {
    if hex in players && players[hex].name.Some? then players[hex].name.value else ""
  }

  /** The profile name: the cached name, else the first eight hex digits of the
      identity, else "unknown". */
  function DisplayName(players: map<string, Player>, identity: Identity): (name: string)
    ensures name != ""
    ensures CachedName(players, ToHex(identity)) != "" ==> name == players[ToHex(identity)].name.value
    ensures CachedName(players, ToHex(identity)) == "" && identity != [] ==>
              name == Substring(ToHex(identity), 8)
    ensures CachedName(players, ToHex(identity)) == "" && identity == [] ==> name == "unknown"
  {
    var hex := ToHex(identity);
    OrElse(OrElse(CachedName(players, hex), Substring(hex, 8)), "unknown")
  }

  /** For an identity of at least four bytes with no cached name, the profile shows the
      hex of its first four bytes, and never "unknown". */
  lemma FallbackNameIsFirstFourBytes(players: map<string, Player>, identity: Identity)
    requires |identity| >= 4
    requires CachedName(players, ToHex(identity)) == ""
    ensures DisplayName(players, identity) == ToHex(identity[..4])
    ensures |DisplayName(players, identity)| == 8
  {
    ToHexPrefix(identity, 4);
  }

  datatype AppView = Connecting | Profile(name: string)

  /** The page: "Connecting..." until the connection, the connected flag and the
      identity are all present; then the profile with its display name. */
  function Render(hasConn: bool, connected: bool, identity: Option<Identity>,
                  players: map<string, Player>): (v: AppView)
    ensures v.Profile? <==> hasConn && connected && identity.Some?
    ensures v.Profile? ==> v.name == DisplayName(players, identity.value)
  {
    if !hasConn || !connected || identity.None? then Connecting
    else Profile(DisplayName(players, identity.value))
  }
}
