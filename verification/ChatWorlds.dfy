/**
 The chat world (single_thread/chat_server.cpp): the player map, the per-sector player lists kept beside it, and the
 handlers the content thread runs one after another.  send_packet and disconnect calls are recorded in order.
 */
module ChatWorlds {
  import opened SectorGrid
  import opened Sequences

  type SessionId = nat
  type Account = int
  /** The bytes of a chat text. */
  type Text = string

  datatype Response =
    | ResLogin(status: nat, account: Account)
    | ResSectorMove(account: Account, x: nat, y: nat)
    | ResMessage(account: Account, text: Text)

  /** A packet and the session it is for. */
  type Send = Tagged<SessionId, Response>

  /**
   A request by its type.  size is what get_data_size gives behind the type field; of a message, short says that it ends
   before its length field does, and tail is what follows that field.
   */
  datatype Request =
    | ReqLogin(size: nat, account: Account)
    | ReqSectorMove(size: nat, x: nat, y: nat)
    | ReqMessage(short: bool, length: nat, tail: Text)
    | ReqHeartbeat
    | TooSmall
    | UnknownType

  const LOGIN_SIZE: nat := 152
  const MOVE_SIZE: nat := 12
  const WCHAR_SIZE: nat := 2
  const MAX_MESSAGE_SIZE: nat := 400

  class Player {
    const sessionId: SessionId
    var account: Account
    var sector: nat
    var loggedIn: bool

    constructor (id: SessionId)
      ensures sessionId == id && account == 0 && sector == INVALID_SECTOR && !loggedIn
    {
      sessionId, account, sector, loggedIn := id, 0, INVALID_SECTOR, false;
    }
  }

  /** The requests of a player that are answered; every other one gets the session disconnected. */
  predicate Accepts(player: Player, request: Request)
    reads player`loggedIn, player`sector
  {
    match request
    case ReqLogin(size, _) => !player.loggedIn && size >= LOGIN_SIZE
    case ReqSectorMove(size, x, y) => player.loggedIn && size >= MOVE_SIZE && x < SECTOR_MAX_X && y < SECTOR_MAX_Y
    case ReqMessage(short, length, tail) =>
      && player.loggedIn && player.sector != INVALID_SECTOR && !short
      && 0 < length <= MAX_MESSAGE_SIZE && length % WCHAR_SIZE == 0 && length <= |tail|
    case ReqHeartbeat => true
    case TooSmall => false
    case UnknownType => false
  }

  /** The accepted requests that change their player. */
  predicate Changes(player: Player, request: Request)
    reads player`loggedIn, player`sector
  {
    Accepts(player, request) && (request.ReqLogin? || request.ReqSectorMove?)
  }

  ghost predicate NoDuplicates<T>(s: seq<T>) {
    forall i, j :: 0 <= i < j < |s| ==> s[i] != s[j]
  }

  lemma NoDuplicatesJoined<T>(a: seq<T>, b: seq<T>)
    requires NoDuplicates(a) && NoDuplicates(b) && forall x :: x in a ==> x !in b
    ensures NoDuplicates(a + b)
  {
    forall i, j | 0 <= i < j < |a + b| ensures (a + b)[i] != (a + b)[j] {
      if i < |a| <= j {
        assert a[i] in a && b[j - |a|] in b;
      }
    }
  }

  /** The same packet to every listed session, in list order. */
  function SendsTo(ids: seq<SessionId>, response: Response): (r: seq<Send>)
    ensures |r| == |ids|
  {
    seq(|ids|, (k: nat) requires k < |ids| => Tagged(ids[k], response))
  }

  class ChatWorld {
    var players: map<SessionId, Player>
    const sectors: array<seq<Player>>
    var playerCount: int
    var outbox: seq<Send>
    var kicked: seq<SessionId>

    ghost predicate Known(p: Player)
      reads this`players
    {
      p.sessionId in players && players[p.sessionId] == p
    }

    /** Only logged-in players are placed. */
    ghost predicate PlayersOk()
      reads this`players, players.Values`sector, players.Values`loggedIn
    {
      forall id :: id in players ==>
        && players[id].sessionId == id
        && (players[id].sector == INVALID_SECTOR || (Placed(players[id].sector) && players[id].loggedIn))
    }

    /** The sector lists agree with the map: each list holds players of its own sector only ... */
    ghost predicate ListsOk()
      reads this`players, sectors, players.Values`sector
    {
      && sectors.Length == TOTAL_SECTORS
      && forall s, p :: 0 <= s < TOTAL_SECTORS && p in sectors[s] ==> Known(p) && p.sector == s
    }

    /** ... none of them twice ... */
    ghost predicate ListedOnce()
      reads sectors
    {
      forall s :: 0 <= s < sectors.Length ==> NoDuplicates(sectors[s])
    }

    /** ... and every placed player is in the list of its sector. */
    ghost predicate PlacedListed()
      reads this`players, sectors, players.Values`sector
    {
      sectors.Length == TOTAL_SECTORS
      && forall id :: id in players && Placed(players[id].sector) ==> players[id] in sectors[players[id].sector]
    }

    /** A player on no list, while every other placed player is still listed. */
    ghost predicate OnlyUnlisted(player: Player)
      requires sectors.Length == TOTAL_SECTORS
      reads this`players, sectors, players.Values`sector
    {
      && (forall s :: 0 <= s < TOTAL_SECTORS ==> player !in sectors[s])
      && (forall id :: id in players && Placed(players[id].sector) && players[id] != player ==>
            players[id] in sectors[players[id].sector])
    }

    ghost function LoggedIn(): set<SessionId>
      reads this`players, players.Values`loggedIn
    {
      set id | id in players && players[id].loggedIn
    }

    ghost predicate Valid()
      reads this`players, this`playerCount, sectors, players.Values`sector, players.Values`loggedIn
    {
      PlayersOk() && ListsOk() && ListedOnce() && PlacedListed() && playerCount == |LoggedIn()|
    }

    constructor ()
      ensures Valid() && fresh(sectors) && players == map[] && outbox == [] && kicked == []
    {
      players := map[];
      sectors := new seq<Player>[TOTAL_SECTORS]((_: nat) => []);
      playerCount := 0;
      outbox, kicked := [], [];
    }

    // -------------------------------------------------------------- the sector lists

    method SectorAddPlayer(player: Player)
      requires sectors.Length == TOTAL_SECTORS && Placed(player.sector)
      modifies sectors
      ensures forall t :: 0 <= t < TOTAL_SECTORS && t != player.sector ==> sectors[t] == old(sectors[t])
      ensures sectors[player.sector] == old(sectors[player.sector]) + [player]
    {
      sectors[player.sector] := sectors[player.sector] + [player];
    }

    /** The last entry takes the removed one's place. */
    method SectorRemovePlayer(player: Player)
      requires sectors.Length == TOTAL_SECTORS && Placed(player.sector)
      requires player in sectors[player.sector] && NoDuplicates(sectors[player.sector])
      modifies sectors
      ensures forall t :: 0 <= t < TOTAL_SECTORS && t != player.sector ==> sectors[t] == old(sectors[t])
      ensures NoDuplicates(sectors[player.sector])
      ensures forall q :: q in sectors[player.sector] <==> q in old(sectors[player.sector]) && q != player
    {
      var list := sectors[player.sector];
      for i := 0 to |list|
        invariant forall j :: 0 <= j < i ==> list[j] != player
        invariant sectors[player.sector] == list
        invariant forall t :: 0 <= t < TOTAL_SECTORS ==> sectors[t] == old(sectors[t])
      {
        if list[i] == player {
          var n := |list| - 1;
          var rest := list[i := list[n]][..n];
          SwapRemoved(list, i, rest);
          sectors[player.sector] := rest;
          return;
        }
      }
    }

    lemma SwapRemoved(list: seq<Player>, i: nat, rest: seq<Player>)
      requires i < |list| && NoDuplicates(list) && rest == list[i := list[|list| - 1]][..|list| - 1]
      ensures NoDuplicates(rest) && forall q :: q in rest <==> q in list && q != list[i]
    {
      var n := |list| - 1;
      forall q | q in list && q != list[i] ensures q in rest {
        var k :| 0 <= k < |list| && list[k] == q;
        assert if k < n then rest[k] == q else rest[i] == q;
      }
    }

    /** Takes a player off the one list it can be on. */
    method Unlist(player: Player)
      requires ListsOk() && ListedOnce() && PlacedListed() && Known(player)
      requires player.sector == INVALID_SECTOR || Placed(player.sector)
      modifies sectors
      ensures ListsOk() && ListedOnce() && OnlyUnlisted(player)
    {
      if player.sector != INVALID_SECTOR {
        assert player in sectors[player.sector] && NoDuplicates(sectors[player.sector]);
        SectorRemovePlayer(player);
        assert ListsOk() by {
          forall s, q | 0 <= s < TOTAL_SECTORS && q in sectors[s] ensures Known(q) && q.sector == s {
            assert q in old(sectors[s]);
          }
        }
      }
    }

    // -------------------------------------------------------------- jobs

    method HandleClientJoin(id: SessionId)
      requires Valid()
      modifies this`players
      ensures Valid()
      ensures id in old(players) ==> players == old(players)
      ensures id !in old(players) ==>
        && id in players && fresh(players[id]) && players == old(players)[id := players[id]]
        && !players[id].loggedIn && players[id].sector == INVALID_SECTOR
    {
      var player := new Player(id);
      if id !in players {
        ghost var before := LoggedIn();
        players := players[id := player];
        assert LoggedIn() == before;
        assert ListsOk() by {
          forall s, p | 0 <= s < TOTAL_SECTORS && p in sectors[s] ensures Known(p) && p.sector == s {
            assert old(Known(p));
          }
        }
      }
    }

    method HandleClientLeave(id: SessionId)
      requires Valid()
      modifies this`players, this`playerCount, sectors
      ensures Valid() && players == old(players) - {id}
    {
      if id !in players {
        assert players == players - {id};
        return;
      }
      RemoveAndCount(players[id]);
    }

    method RemoveAndCount(player: Player)
      requires Valid() && Known(player)
      modifies this`players, this`playerCount, sectors
      ensures Valid() && players == old(players) - {player.sessionId}
    {
      ghost var before := LoggedIn();
      Remove(player, before);
      Uncount(player, before);
    }

    /** The count follows a player out of the map. */
    method Uncount(player: Player, ghost before: set<SessionId>)
      requires playerCount == |before| && (player.loggedIn <==> player.sessionId in before)
      requires PlayersOk() && ListsOk() && ListedOnce() && PlacedListed()
      requires LoggedIn() == before - {player.sessionId}
      modifies this`playerCount
      ensures Valid()
    {
      if player.loggedIn {
        playerCount := playerCount - 1;
      } else {
        assert before - {player.sessionId} == before;
      }
    }

    /** Takes a player off its list and out of the map. */
    method Remove(player: Player, ghost before: set<SessionId>)
      requires PlayersOk() && ListsOk() && ListedOnce() && PlacedListed() && Known(player)
      requires before == LoggedIn()
      modifies this`players, sectors
      ensures PlayersOk() && ListsOk() && ListedOnce() && PlacedListed()
      ensures players == old(players) - {player.sessionId}
      ensures LoggedIn() == before - {player.sessionId} && (player.loggedIn <==> player.sessionId in before)
    {
      Unlist(player);
      Erase(player);
    }

    /** Takes a player on no list out of the map. */
    method Erase(player: Player)
      requires PlayersOk() && ListsOk() && ListedOnce() && Known(player) && OnlyUnlisted(player)
      modifies this`players
      ensures PlayersOk() && ListsOk() && ListedOnce() && PlacedListed()
      ensures players == old(players) - {player.sessionId} && LoggedIn() == old(LoggedIn()) - {player.sessionId}
    {
      players := players - {player.sessionId};
      assert ListsOk() by {
        forall s, p | 0 <= s < TOTAL_SECTORS && p in sectors[s] ensures Known(p) && p.sector == s {
          assert old(Known(p)) && p != player;
        }
      }
    }

    method Disconnect(id: SessionId)
      modifies this`kicked
      ensures kicked == old(kicked) + [id]
    {
      kicked := kicked + [id];
    }

    method HandleReqLogin(player: Player, size: nat, account: Account)
      requires Valid() && Known(player)
      modifies this`playerCount, this`outbox, this`kicked, player
      ensures Valid()
      ensures var ok := old(Accepts(player, ReqLogin(size, account)));
        && player.loggedIn == (old(player.loggedIn) || ok) && player.sector == old(player.sector)
        && player.account == (if ok then account else old(player.account))
        && outbox == old(outbox) + (if ok then [Tagged(player.sessionId, ResLogin(1, account))] else [])
        && kicked == old(kicked) + (if ok then [] else [player.sessionId])
        && playerCount == old(playerCount) + (if ok then 1 else 0)
    {
      if player.loggedIn {
        Disconnect(player.sessionId);
        return;
      }
      if size < LOGIN_SIZE {
        Disconnect(player.sessionId);
        return;
      }
      LogIn(player, account);
      outbox := outbox + [Tagged(player.sessionId, ResLogin(1, player.account))];
    }

    method LogIn(player: Player, account: Account)
      requires Valid() && Known(player) && !player.loggedIn
      modifies this`playerCount, player`loggedIn, player`account
      ensures Valid() && player.loggedIn && player.account == account && playerCount == old(playerCount) + 1
    {
      ghost var before := LoggedIn();
      player.account := account;
      player.loggedIn := true;
      playerCount := playerCount + 1;
      assert LoggedIn() == before + {player.sessionId};
    }

    method HandleReqSectorMove(player: Player, size: nat, x: nat, y: nat)
      requires Valid() && Known(player)
      modifies this`outbox, this`kicked, player`sector, sectors
      ensures Valid()
      ensures var ok := old(Accepts(player, ReqSectorMove(size, x, y)));
        && player.sector == (if ok then ToSectorIndex(x, y) else old(player.sector))
        && outbox == old(outbox) + (if ok then [Tagged(player.sessionId, ResSectorMove(player.account, x, y))] else [])
        && kicked == old(kicked) + (if ok then [] else [player.sessionId])
        && (!ok ==> sectors[..] == old(sectors[..]))
    {
      if !player.loggedIn || size < MOVE_SIZE || x >= SECTOR_MAX_X || y >= SECTOR_MAX_Y {
        Disconnect(player.sessionId);
        return;
      }
      Unlist(player);
      PlaceAt(player, ToSectorIndex(x, y));
      outbox := outbox + [Tagged(player.sessionId, ResSectorMove(player.account, x, y))];
    }

    /** A player on no list enters a sector. */
    method PlaceAt(player: Player, sector: nat)
      requires PlayersOk() && ListsOk() && ListedOnce() && Known(player) && OnlyUnlisted(player)
      requires player.loggedIn && Placed(sector)
      requires playerCount == |LoggedIn()|
      modifies player`sector, sectors
      ensures Valid() && player.sector == sector
    {
      ghost var before := LoggedIn();
      player.sector := sector;
      SectorAddPlayer(player);
      assert LoggedIn() == before;
      assert ListsOk() by {
        forall s, p | 0 <= s < TOTAL_SECTORS && p in sectors[s] ensures Known(p) && p.sector == s {
          if p != player {
            assert p in old(sectors[s]);
          }
        }
      }
    }

    // -------------------------------------------------------------- broadcast

    /** What a full scan of the player map finds: the placed players within one sector on each axis. */
    ghost predicate InRange(sender: Player, id: SessionId)
      reads this`players, players.Values`sector, sender`sector
    {
      id in players && Placed(players[id].sector) && Near(sender.sector, players[id].sector)
    }

    /** Listed in one of the first n sectors of the area. */
    ghost predicate Reached(around: seq<nat>, n: nat, id: SessionId)
      requires n <= |around|
      reads this`players, players.Values`sector
    {
      id in players && Placed(players[id].sector) && players[id].sector in around[..n]
    }

    /** Sends one packet to everybody in one sector. */
    method SendToSector(sector: nat, packet: Response) returns (ghost ids: seq<SessionId>)
      requires Valid() && Placed(sector)
      modifies this`outbox
      ensures outbox == old(outbox) + SendsTo(ids, packet)
      ensures NoDuplicates(ids)
      ensures forall id :: id in ids <==> id in players && players[id].sector == sector
    {
      var list := sectors[sector];
      ids := [];
      for k := 0 to |list|
        invariant outbox == old(outbox) + SendsTo(ids, packet)
        invariant |ids| == k && forall i :: 0 <= i < k ==> ids[i] == list[i].sessionId
      {
        outbox := outbox + [Tagged(list[k].sessionId, packet)];
        assert SendsTo(ids + [list[k].sessionId], packet) == SendsTo(ids, packet) + [Tagged(list[k].sessionId, packet)];
        ids := ids + [list[k].sessionId];
      }
      ListIsSector(sector, list, ids);
    }

    lemma ListIsSector(sector: nat, list: seq<Player>, ids: seq<SessionId>)
      requires Valid() && Placed(sector) && list == sectors[sector] && |ids| == |list|
      requires forall i :: 0 <= i < |ids| ==> ids[i] == list[i].sessionId
      ensures NoDuplicates(ids)
      ensures forall id :: id in ids <==> id in players && players[id].sector == sector
    {
      forall i, j | 0 <= i < j < |ids| ensures ids[i] != ids[j] {
        assert list[i] in sectors[sector] && list[j] in sectors[sector];
        assert Known(list[i]) && Known(list[j]) && NoDuplicates(sectors[sector]);
      }
      forall i | 0 <= i < |ids| ensures ids[i] in players && players[ids[i]].sector == sector {
        assert list[i] in sectors[sector];
        assert Known(list[i]) && list[i].sector == sector;
      }
      forall id | id in players && players[id].sector == sector ensures id in ids {
        assert players[id] in sectors[players[id].sector];
        var k :| 0 <= k < |list| && list[k] == players[id];
        assert ids[k] == id;
      }
    }

    /** A broadcast sends exactly once to exactly the players a full scan finds in range, the sender included. */
    method BroadcastResMessage(sender: Player, packet: Response) returns (ghost ids: seq<SessionId>)
      requires Valid() && Placed(sender.sector)
      modifies this`outbox
      ensures Valid()
      ensures outbox == old(outbox) + SendsTo(ids, packet)
      ensures NoDuplicates(ids) && forall id :: id in ids <==> InRange(sender, id)
    {
      var around := AroundSectors(sender.sector);
      ghost var area := around[..];
      ids := [];
      for i := 0 to AROUND_COUNT
        invariant area == around[..]
        invariant outbox == old(outbox) + SendsTo(ids, packet)
        invariant NoDuplicates(ids) && forall id :: id in ids <==> Reached(area, i, id)
      {
        ids := SendToEntry(sender.sector, around[i], packet, area, i, ids);
      }
      AreaIsRange(sender, area);
    }

    /** One entry of the area: nothing outside the grid, one sector inside it. */
    method SendToEntry(sector: nat, entry: nat, packet: Response, ghost area: seq<nat>, ghost i: nat,
                       ghost ids: seq<SessionId>)
      returns (ghost ids': seq<SessionId>)
      requires Valid() && Placed(sector) && |area| == AROUND_COUNT && i < AROUND_COUNT && entry == area[i]
      requires forall j :: 0 <= j < AROUND_COUNT ==> area[j] == AroundAt(sector, j)
      requires NoDuplicates(ids) && forall id :: id in ids <==> Reached(area, i, id)
      modifies this`outbox
      ensures ids <= ids' && outbox == old(outbox) + SendsTo(ids'[|ids|..], packet)
      ensures SendsTo(ids', packet) == SendsTo(ids, packet) + SendsTo(ids'[|ids|..], packet)
      ensures NoDuplicates(ids') && forall id :: id in ids' <==> Reached(area, i + 1, id)
    {
      assert area[..i + 1] == area[..i] + [area[i]];
      if entry == INVALID_SECTOR {
        ids' := ids;
        assert SendsTo([], packet) == [];
        assert ids'[|ids|..] == [];
        return;
      }
      AroundEntryNear(sector, i);
      ghost var more := SendToSector(entry, packet);
      NextSector(sector, area, i, ids, more);
      ids' := ids + more;
      assert ids'[|ids|..] == more;
    }

    /** The next sector of the area adds its own players, none of whom has been reached before. */
    lemma NextSector(sector: nat, area: seq<nat>, i: nat, ids: seq<SessionId>, more: seq<SessionId>)
      requires Placed(sector) && |area| == AROUND_COUNT && i < AROUND_COUNT && area[i] != INVALID_SECTOR
      requires forall j :: 0 <= j < AROUND_COUNT ==> area[j] == AroundAt(sector, j)
      requires Placed(area[i])
      requires NoDuplicates(ids) && forall id :: id in ids <==> Reached(area, i, id)
      requires NoDuplicates(more) && forall id :: id in more <==> id in players && players[id].sector == area[i]
      ensures NoDuplicates(ids + more) && forall id :: id in ids + more <==> Reached(area, i + 1, id)
    {
      assert area[..i + 1] == area[..i] + [area[i]];
      forall id | id in ids ensures id !in more {
        var j :| 0 <= j < i && area[j] == players[id].sector;
        AroundDistinct(sector, j, i);
      }
      NoDuplicatesJoined(ids, more);
    }

    lemma AreaIsRange(sender: Player, area: seq<nat>)
      requires Valid() && Placed(sender.sector) && |area| == AROUND_COUNT
      requires forall j :: 0 <= j < AROUND_COUNT ==> area[j] == AroundAt(sender.sector, j)
      ensures forall id :: Reached(area, AROUND_COUNT, id) <==> InRange(sender, id)
    {
      forall id ensures Reached(area, AROUND_COUNT, id) <==> InRange(sender, id) {
        if id in players && Placed(players[id].sector) {
          var t := players[id].sector;
          AroundIsNear(sender.sector, t);
          assert t in area[..AROUND_COUNT] <==> exists j :: 0 <= j < AROUND_COUNT && area[j] == t;
          assert (exists j :: 0 <= j < AROUND_COUNT && area[j] == t)
            <==> (exists j :: 0 <= j < AROUND_COUNT && AroundAt(sender.sector, j) == t);
        }
      }
    }

    // -------------------------------------------------------------- requests

    method HandleReqMessage(player: Player, short: bool, length: nat, tail: Text) returns (ghost ids: seq<SessionId>)
      requires Valid() && Known(player)
      modifies this`outbox, this`kicked
      ensures Valid()
      ensures var ok := old(Accepts(player, ReqMessage(short, length, tail)));
        && (ok ==> NoDuplicates(ids) && forall id :: id in ids <==> InRange(player, id))
        && outbox == old(outbox) + (if ok then SendsTo(ids, ResMessage(player.account, tail[..length])) else [])
        && kicked == old(kicked) + (if ok then [] else [player.sessionId])
    {
      ids := [];
      if !player.loggedIn || player.sector == INVALID_SECTOR || short {
        Disconnect(player.sessionId);
        return;
      }
      if length == 0 || length > MAX_MESSAGE_SIZE || length % WCHAR_SIZE != 0 {
        Disconnect(player.sessionId);
        return;
      }
      if |tail| < length {
        Disconnect(player.sessionId);
        return;
      }
      ids := BroadcastResMessage(player, ResMessage(player.account, tail[..length]));
    }

    /** Exactly the accepted requests are answered; requests of unknown sessions change nothing at all, and no request
        touches another player, or its own if it is not accepted. */
    method HandleRecv(id: SessionId, request: Request) returns (ghost ids: seq<SessionId>)
      requires Valid()
      modifies this`playerCount, this`outbox, this`kicked, sectors, players.Values
      ensures Valid() && players == old(players)
      ensures id !in players ==> outbox == old(outbox) && kicked == old(kicked)
      ensures id !in players || !old(Changes(players[id], request)) ==>
        playerCount == old(playerCount) && sectors[..] == old(sectors[..])
      ensures forall other :: other in players && (other != id || !old(Changes(players[id], request))) ==>
        && players[other].account == old(players[other].account)
        && players[other].sector == old(players[other].sector)
        && players[other].loggedIn == old(players[other].loggedIn)
      ensures id in players ==>
        && kicked == old(kicked) + (if old(Accepts(players[id], request)) then [] else [id])
        && (!old(Accepts(players[id], request)) || request.ReqHeartbeat? ==> outbox == old(outbox))
      ensures id in players && old(Accepts(players[id], request)) ==>
        match request
        case ReqLogin(_, account) =>
          && players[id].loggedIn && players[id].account == account && players[id].sector == old(players[id].sector)
          && playerCount == old(playerCount) + 1 && sectors[..] == old(sectors[..])
          && outbox == old(outbox) + [Tagged(id, ResLogin(1, account))]
        case ReqSectorMove(_, x, y) =>
          && players[id].sector == ToSectorIndex(x, y) && playerCount == old(playerCount)
          && players[id].loggedIn && players[id].account == old(players[id].account)
          && outbox == old(outbox) + [Tagged(id, ResSectorMove(players[id].account, x, y))]
        case ReqMessage(_, length, tail) =>
          && NoDuplicates(ids) && (forall to :: to in ids <==> InRange(players[id], to))
          && outbox == old(outbox) + SendsTo(ids, ResMessage(players[id].account, tail[..length]))
        case _ => true
    {
      ids := [];
      if id !in players {
        return;
      }
      var player := players[id];
      match request {
        case ReqLogin(size, account) => HandleReqLogin(player, size, account);
        case ReqSectorMove(size, x, y) => HandleReqSectorMove(player, size, x, y);
        case ReqMessage(short, length, tail) =>
          ids := HandleReqMessage(player, short, length, tail);
        case ReqHeartbeat =>
        case TooSmall => Disconnect(id);
        case UnknownType => Disconnect(id);
      }
    }
  }
}
