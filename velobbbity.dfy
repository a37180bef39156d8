/**
 * The lobby-detour coordinator. A player who asks the queue for a server
 * while not on a lobby is sent to the first available configured lobby
 * instead; once the player arrives there the original request is queued
 * again after a delay.
 *
 * The queue plugin, the proxy and the scheduler are outside: the live
 * server list is an input, what the coordinator asks of them is appended
 * to `log`, and delayed tasks wait in `pending` until `RunTask` fires one.
 */
module Coordinator {
  import opened Wrappers
  import opened Uuids
  import opened LobbyServers
  import opened Players

  /** A server as the queue plugin reports it to one player at one moment. */
  datatype QueueServer = QueueServer(name: string, online: bool, joinable: bool)

  /** The delay a task is scheduled with. */
  datatype Delay = FiveSeconds | TwoSeconds

  /**
   * A task waiting in the proxy's scheduler. Both kinds hold the player
   * record itself, not a copy of its fields.
   */
  datatype Task =
    | /** Ask the queue to add the player to the record's desired server, read when the task runs. */
      AddToQueueTask(delay: Delay, record: VelobbityPlayer)
    | /** Try lobby placement again, with the desired server captured when the task was made. */
      RedirectRetryTask(delay: Delay, record: VelobbityPlayer, desired: Option<string>)

  /** What the coordinator asks of the proxy and the queue plugin. */
  datatype Effect =
    | Connect(player: Uuid, server: string)
    | AddToQueue(player: Uuid, target: Option<string>)
    | ActionBar(player: Uuid, text: string)

  const RedirectingText := "Redirecting to lobby server..."
  const NoLobbyText := "No available lobby servers. Please try again later."

  /** The character of a decimal digit. */
  function DigitChar(i: nat): (c: char)
    requires i < 10
  {
    ('0' as int + i) as char
  }

  /** The lobby list written when the configuration has no servers yet. */
  function DefaultLobbyList(): (list: seq<LobbyServer>)
    ensures list == [LobbyServer("lobby1", 100), LobbyServer("lobby2", 100), LobbyServer("lobby3", 100)]
  {
    var list := seq(3, j requires 0 <= j < 3 => LobbyServer("lobby" + [DigitChar(j + 1)], 100));
    assert list[0].serverName == "lobby1" && list[1].serverName == "lobby2" && list[2].serverName == "lobby3";
    list
  }

  /** The map built by putting each server of `list` under its name, in order. */
  function KeyedByName(list: seq<LobbyServer>): (m: map<string, LobbyServer>)
  {
    if list == [] then map[]
    else
      var last := list[|list| - 1];
      KeyedByName(list[..|list| - 1])[last.serverName := last]
  }

  function DefaultLobbies(): (m: map<string, LobbyServer>)
  {
    KeyedByName(DefaultLobbyList())
  }

  /**
   * Each server is reachable under its own name, every key is the name of
   * some listed server, and a later server with the same name replaces an
   * earlier one.
   */
  lemma {:induction false} KeyedByNameContents(list: seq<LobbyServer>)
    ensures forall i :: 0 <= i < |list| ==> list[i].serverName in KeyedByName(list)
    ensures forall name :: name in KeyedByName(list) ==>
              KeyedByName(list)[name].serverName == name && KeyedByName(list)[name] in list
    ensures forall i :: 0 <= i < |list| && (forall j :: i < j < |list| ==> list[j].serverName != list[i].serverName)
              ==> KeyedByName(list)[list[i].serverName] == list[i]
  {
    if list != [] {
      var init := list[..|list| - 1];
      KeyedByNameContents(init);
      assert forall i :: 0 <= i < |init| ==> init[i] == list[i];
    }
  }

  /** The default set is lobby1, lobby2 and lobby3, each for 100 players. */
  lemma DefaultLobbySet()
    ensures DefaultLobbies().Keys == {"lobby1", "lobby2", "lobby3"}
    ensures forall name :: name in DefaultLobbies() ==>
              DefaultLobbies()[name] == LobbyServer(name, 100)
  {
    var list := DefaultLobbyList();
    assert list[..2][..1] == [list[0]];
    assert list[..2] == [list[0], list[1]];
    assert list[..2][..1][..0] == [];
    assert KeyedByName(list[..2][..1]) == map["lobby1" := list[0]];
    assert KeyedByName(list[..2]) == map["lobby1" := list[0], "lobby2" := list[1]];
    assert DefaultLobbies() == map["lobby1" := list[0], "lobby2" := list[1], "lobby3" := list[2]];
  }

  /** A server the selector may choose: a configured lobby that is online and will take the player. */
  predicate Eligible(s: QueueServer, lobbies: map<string, LobbyServer>)
  {
    s.name in lobbies && s.online && s.joinable
  }

  /** The position of the first eligible server at or after `from`. */
  function FirstFit(servers: seq<QueueServer>, lobbies: map<string, LobbyServer>, from: nat): (r: Option<nat>)
    requires from <= |servers|
    ensures r.Some? ==> from <= r.value < |servers| && Eligible(servers[r.value], lobbies)
    ensures r.Some? ==> forall j :: from <= j < r.value ==> !Eligible(servers[j], lobbies)
    ensures r.None? ==> forall j :: from <= j < |servers| ==> !Eligible(servers[j], lobbies)
    decreases |servers| - from
  {
    if from == |servers| then None
    else if Eligible(servers[from], lobbies) then Some(from)
    else FirstFit(servers, lobbies, from + 1)
  }

  /** The server lobby placement picks: the first eligible one in the reported order. */
  function Select(servers: seq<QueueServer>, lobbies: map<string, LobbyServer>): (r: Option<QueueServer>)
    ensures r.Some? ==> r.value in servers && r.value.name in lobbies && r.value.online && r.value.joinable
    ensures r.None? <==> forall j :: 0 <= j < |servers| ==> !Eligible(servers[j], lobbies)
  {
    match FirstFit(servers, lobbies, 0)
    case Some(i) => Some(servers[i])
    case None => None
  }

  /** Selection is first fit: every server before the chosen one is ineligible. */
  lemma SelectIsFirstFit(servers: seq<QueueServer>, lobbies: map<string, LobbyServer>, i: nat)
    requires i < |servers| && Eligible(servers[i], lobbies)
    requires forall j :: 0 <= j < i ==> !Eligible(servers[j], lobbies)
    ensures Select(servers, lobbies) == Some(servers[i])
  {
    var r := FirstFit(servers, lobbies, 0);
    assert r.Some?;
    assert !(r.value < i);
    assert !(r.value > i);
  }

  /**
   * Only the names of the configured lobbies matter to selection: their
   * player caps are never consulted; fullness is the queue's `joinable`.
   */
  lemma {:induction false} SelectIgnoresCaps(servers: seq<QueueServer>, a: map<string, LobbyServer>, b: map<string, LobbyServer>, from: nat)
    requires from <= |servers|
    requires a.Keys == b.Keys
    ensures FirstFit(servers, a, from) == FirstFit(servers, b, from)
    ensures from == 0 ==> Select(servers, a) == Select(servers, b)
    decreases |servers| - from
  {
    if from < |servers| {
      assert Eligible(servers[from], a) == Eligible(servers[from], b);
      SelectIgnoresCaps(servers, a, b, from + 1);
    }
  }

  /** What the PreQueue listener shows the player and where it connects them. */
  function PlacementNotice(id: Uuid, found: Option<QueueServer>): (effects: seq<Effect>)
    ensures |effects| >= 1 && effects[0] == ActionBar(id, if found.Some? then RedirectingText else NoLobbyText)
    ensures found.Some? <==> exists s :: Connect(id, s) in effects
    ensures found.Some? ==> effects[1..] == [Connect(id, found.value.name)]
    ensures found.None? ==> |effects| == 1
  {
    match found
    case Some(s) => [ActionBar(id, RedirectingText), Connect(id, s.name)]
    case None => [ActionBar(id, NoLobbyText)]
  }

  /** The coordinator: the player registry, the configured lobbies, pending tasks and requested effects. */
  class Velobbbity {
    var players: map<Uuid, VelobbityPlayer>
    var lobbies: map<string, LobbyServer>
    var pending: seq<Task>
    var log: seq<Effect>

    constructor ()
      ensures Valid()
      ensures players == map[] && lobbies == map[] && pending == [] && log == []
    {
      players := map[];
      lobbies := map[];
      pending := [];
      log := [];
    }

    /** Every record is stored under its own identifier, so there is one record per player. */
    ghost predicate Valid()
      reads this
    {
      forall id :: id in players ==> players[id].uuid == id
    }

    /** The record stored for `id`, as a frame. */
    function RecordOf(id: Uuid): set<VelobbityPlayer>
      reads this
    {
      if id in players then {players[id]} else {}
    }

    /** The fields `id`'s record has, or a record made for it under `name` would have. */
    function StateOrNew(id: Uuid, name: string): PlayerState
      reads this, players.Values
    {
      if id in players then players[id].State() else PlayerState(id, Some(name), None, None)
    }

    /** `configuredLobbyServers.containsKey(name)`; null is never a key. */
    predicate IsLobby(name: Option<string>)
      reads this
    {
      name.Some? && name.value in lobbies
    }

    /** The default lobby set of a fresh configuration, put one by one. */
    method SetupDefaultLobbies()
      modifies this`lobbies
      ensures lobbies == old(lobbies) + DefaultLobbies()
    {
      ghost var list := DefaultLobbyList();
      for i := 1 to 4
        invariant lobbies == old(lobbies) + KeyedByName(list[..i - 1])
      {
        var lobbyServer := LobbyServer("lobby" + [DigitChar(i)], 100);
        assert list[i - 1] == lobbyServer;
        assert list[..i][..i - 1] == list[..i - 1];
        assert KeyedByName(list[..i]) == KeyedByName(list[..i - 1])[lobbyServer.serverName := lobbyServer];
        lobbies := lobbies[lobbyServer.serverName := lobbyServer];
      }
      assert list[..3] == list;
    }

    /** The servers read from an existing configuration, put one by one. */
    method LoadLobbies(servers: seq<LobbyServer>)
      modifies this`lobbies
      ensures lobbies == old(lobbies) + KeyedByName(servers)
    {
      for i := 0 to |servers|
        invariant lobbies == old(lobbies) + KeyedByName(servers[..i])
      {
        assert servers[..i + 1][..i] == servers[..i];
        lobbies := lobbies[servers[i].serverName := servers[i]];
      }
      assert servers[..|servers|] == servers;
    }

    /** Get the record for `id`, storing a new one made with `name` if there is none. */
    method GetOrCreate(id: Uuid, name: string) returns (player: VelobbityPlayer)
      requires Valid()
      modifies this`players
      ensures Valid()
      ensures player.uuid == id && players == old(players)[id := player]
      ensures id in old(players) ==> player == old(players[id])
      ensures id !in old(players) ==> fresh(player)
      ensures player.State() == old(StateOrNew(id, name))
    {
      if id in players {
        player := players[id];
      } else {
        player := new VelobbityPlayer.WithName(id, name);
        players := players[id := player];
      }
    }

    /** Login: a record is made only for a player who has none; an existing one is left alone. */
    method OnLogin(id: Uuid, username: string)
      requires Valid()
      modifies this`players
      ensures Valid()
      ensures id in old(players) ==> players == old(players)
      ensures id !in old(players) ==> id in players && fresh(players[id]) && players == old(players)[id := players[id]]
      ensures id !in old(players) ==> players[id].State() == PlayerState(id, Some(username), None, None)
    {
      if id in players {
        return;
      }
      var player := new VelobbityPlayer.WithName(id, username);
      players := players[id := player];
    }

    /**
     * Arrival on `server`: the record (made if missing) gets `server` as its
     * last server and keeps its name and desired server; arriving on a lobby
     * while the desired server is not one schedules the advance to it.
     */
    method ServerJoin(id: Uuid, username: string, server: string)
      requires Valid()
      modifies this`players, this`pending, RecordOf(id)
      ensures Valid()
      ensures id in players && players == old(players)[id := players[id]]
      ensures id in old(players) ==> players[id] == old(players[id])
      ensures id !in old(players) ==> fresh(players[id])
      ensures players[id].State() == old(StateOrNew(id, username)).(lastServer := Some(server))
      ensures pending == old(pending) +
                (if IsLobby(Some(server)) && !IsLobby(players[id].desiredServer)
                 then [AddToQueueTask(FiveSeconds, players[id])] else [])
      ensures log == old(log)
    {
      var player: VelobbityPlayer;
      if id !in players {
        player := new VelobbityPlayer.WithName(id, username);
      } else {
        player := players[id];
      }
      player.lastServer := Some(server);
      players := players[id := player];
      if IsLobby(player.lastServer) && !IsLobby(player.desiredServer) {
        pending := pending + [AddToQueueTask(FiveSeconds, player)];
      }
    }

    /** Disconnect: only this player's entry goes; pending tasks stay and still hold the record. */
    method ProxyLogout(id: Uuid)
      requires Valid()
      modifies this`players
      ensures Valid()
      ensures players == old(players) - {id}
    {
      players := players - {id};
    }

    /**
     * The first-fit selector: the first reported server that is a configured
     * lobby, online and joinable. On a hit the record gets the player's
     * current server and `desired` and is stored under its identifier; on a
     * miss nothing changes.
     */
    method GetAndSendAvailableLobbyServer(record: VelobbityPlayer, current: Option<string>,
                                          desired: Option<string>, servers: seq<QueueServer>)
      returns (found: Option<QueueServer>)
      requires Valid()
      modifies this`players, record
      ensures Valid()
      ensures found == Select(servers, lobbies)
      ensures found.Some? ==> record.State() == old(record.State()).(lastServer := current, desiredServer := desired)
      ensures found.Some? ==> players == old(players)[record.uuid := record]
      ensures found.None? ==> players == old(players) && unchanged(record)
    {
      found := None;
      for i := 0 to |servers|
        invariant forall j :: 0 <= j < i ==> !Eligible(servers[j], lobbies)
        invariant players == old(players) && unchanged(record)
      {
        var queueServer := servers[i];
        if queueServer.name in lobbies {
          if queueServer.online && queueServer.joinable {
            record.lastServer := current;
            record.desiredServer := desired;
            players := players[record.uuid := record];
            found := Some(queueServer);
            SelectIsFirstFit(servers, lobbies, i);
            break;
          }
        }
      }
    }

    /**
     * One placement attempt: connect to the selected lobby and report
     * success, or schedule the same attempt again in two seconds.
     */
    method RedirectPlayerToLobbyServer(record: VelobbityPlayer, current: Option<string>,
                                       desired: Option<string>, servers: seq<QueueServer>)
      returns (success: bool)
      requires Valid()
      modifies this`players, this`pending, this`log, record
      ensures Valid()
      ensures success <==> Select(servers, lobbies).Some?
      ensures success ==> log == old(log) + [Connect(record.uuid, Select(servers, lobbies).value.name)]
                          && pending == old(pending)
                          && record.State() == old(record.State()).(lastServer := current, desiredServer := desired)
                          && players == old(players)[record.uuid := record]
      ensures !success ==> log == old(log) && pending == old(pending) + [RedirectRetryTask(TwoSeconds, record, desired)]
                           && players == old(players) && unchanged(record)
    {
      success := false;
      var queueServer := GetAndSendAvailableLobbyServer(record, current, desired, servers);
      if queueServer.Some? {
        success := true;
        log := log + [Connect(record.uuid, queueServer.value.name)];
      } else {
        pending := pending + [RedirectRetryTask(TwoSeconds, record, desired)];
      }
    }

    /**
     * The "safe" signal: get or make the record (with an empty name) and run
     * lobby placement again with the record's own desired server. The
     * player is not sent on to that server.
     */
    method Redirect(id: Uuid, current: Option<string>, servers: seq<QueueServer>)
      requires Valid()
      modifies this`players, this`pending, this`log, RecordOf(id)
      ensures Valid()
      ensures id in players && players == old(players)[id := players[id]]
      ensures id in old(players) ==> players[id] == old(players[id])
      ensures id !in old(players) ==> fresh(players[id])
      ensures Select(servers, lobbies).Some? ==>
                log == old(log) + [Connect(id, Select(servers, lobbies).value.name)] && pending == old(pending)
                && players[id].State() == old(StateOrNew(id, "")).(lastServer := current)
      ensures Select(servers, lobbies).None? ==>
                log == old(log) && players[id].State() == old(StateOrNew(id, ""))
                && pending == old(pending) + [RedirectRetryTask(TwoSeconds, players[id], old(StateOrNew(id, "")).desiredServer)]
    {
      var player := GetOrCreate(id, "");
      var _ := RedirectPlayerToLobbyServer(player, current, player.desiredServer, servers);
    }

    /**
     * The PreQueue listener's branch for a player off a lobby: pick a lobby,
     * tell the player, and connect them when one was found.
     */
    method SendToLobby(player: VelobbityPlayer, current: Option<string>, target: string, servers: seq<QueueServer>)
      requires Valid()
      requires player.uuid in players && players[player.uuid] == player
      modifies this`players, this`log, player
      ensures Valid()
      ensures players == old(players) && pending == old(pending)
      ensures log == old(log) + PlacementNotice(player.uuid, Select(servers, lobbies))
      ensures Select(servers, lobbies).Some? ==>
                player.State() == old(player.State()).(lastServer := current, desiredServer := Some(target))
      ensures Select(servers, lobbies).None? ==> unchanged(player)
    {
      var queueServer := GetAndSendAvailableLobbyServer(player, current, Some(target), servers);
      if queueServer.Some? {
        log := log + [ActionBar(player.uuid, RedirectingText), Connect(player.uuid, queueServer.value.name)];
      } else {
        log := log + [ActionBar(player.uuid, NoLobbyText)];
      }
    }

    /**
     * The PreQueue listener's branch for a player on a lobby. With a status
     * channel the stored status is read and, blank or not, nothing follows;
     * without one the record's desired server is queued in two seconds.
     */
    method DelayUntilSafe(player: VelobbityPlayer, statusChannel: bool)
      modifies this`pending
      ensures pending == old(pending) + (if statusChannel then [] else [AddToQueueTask(TwoSeconds, player)])
    {
      if !statusChannel {
        pending := pending + [AddToQueueTask(TwoSeconds, player)];
      }
    }

    /**
     * The PreQueue listener. Off a lobby (or with no last server) the request
     * is cancelled and the player is sent to a lobby, or told once that none
     * is free. On a lobby the request goes through, and without a status
     * channel the desired server is queued again in two seconds.
     */
    method OnPreQueue(id: Uuid, name: string, current: Option<string>, target: string,
                      servers: seq<QueueServer>, statusChannel: bool)
      returns (cancelled: bool)
      requires Valid()
      modifies this`players, this`pending, this`log, RecordOf(id)
      ensures Valid()
      ensures id in players && players == old(players)[id := players[id]]
      ensures id in old(players) ==> players[id] == old(players[id])
      ensures id !in old(players) ==> fresh(players[id])
      ensures cancelled == !IsLobby(old(StateOrNew(id, name)).lastServer)
      ensures cancelled ==> pending == old(pending) && log == old(log) + PlacementNotice(id, Select(servers, lobbies))
      ensures cancelled ==> players[id].State() ==
                              if Select(servers, lobbies).Some?
                              then old(StateOrNew(id, name)).(lastServer := current, desiredServer := Some(target))
                              else old(StateOrNew(id, name))
      ensures !cancelled ==> log == old(log) && players == old(players) && unchanged(players[id])
                             && pending == old(pending) + (if statusChannel then [] else [AddToQueueTask(TwoSeconds, players[id])])
    {
      var player := GetOrCreate(id, name);
      if !IsLobby(player.lastServer) {
        cancelled := true;
        SendToLobby(player, current, target, servers);
      } else {
        cancelled := false;
        DelayUntilSafe(player, statusChannel);
      }
    }

    /**
     * The scheduler fires pending task `k`. An advance asks the queue for
     * the record's desired server as it is now; a retry repeats placement
     * with the server it captured, and may schedule itself again.
     */
    method RunTask(k: nat, current: Option<string>, servers: seq<QueueServer>)
      requires Valid() && k < |pending|
      modifies this`players, this`pending, this`log, pending[k].record
      ensures Valid()
      ensures var task := old(pending[k]);
              var rest := old(pending[..k] + pending[k + 1..]);
              var found := Select(servers, lobbies);
              match task
              case AddToQueueTask(_, record) =>
                log == old(log) + [AddToQueue(record.uuid, old(record.desiredServer))]
                && pending == rest && players == old(players) && unchanged(record)
              case RedirectRetryTask(_, record, desired) =>
                if found.Some? then
                  log == old(log) + [Connect(record.uuid, found.value.name)] && pending == rest
                  && record.lastServer == current && record.desiredServer == desired
                  && players == old(players)[record.uuid := record]
                else
                  log == old(log) && pending == rest + [RedirectRetryTask(TwoSeconds, record, desired)]
                  && players == old(players) && unchanged(record)
    {
      var task := pending[k];
      pending := pending[..k] + pending[k + 1..];
      match task
      case AddToQueueTask(_, record) =>
        log := log + [AddToQueue(record.uuid, record.desiredServer)];
      case RedirectRetryTask(_, record, desired) =>
        var _ := RedirectPlayerToLobbyServer(record, current, desired, servers);
    }
  }

  /**
   * The detour as a whole: a player off a lobby asks for `target`, is sent
   * to the first free lobby instead, arrives there, and when the advance
   * task fires the queue is asked for `target` again.
   */
  method Detour(v: Velobbbity, id: Uuid, name: string, current: Option<string>, target: string,
                servers: seq<QueueServer>, statusChannel: bool)
    requires v.Valid()
    requires !v.IsLobby(v.StateOrNew(id, name).lastServer)
    requires Select(servers, v.lobbies).Some? && target !in v.lobbies
    modifies v, v.RecordOf(id)
    ensures v.Valid() && v.pending == old(v.pending) && v.lobbies == old(v.lobbies)
    ensures v.log == old(v.log) + PlacementNotice(id, Select(servers, old(v.lobbies))) + [AddToQueue(id, Some(target))]
    ensures id in v.players && v.players[id].desiredServer == Some(target)
            && v.players[id].lastServer == Some(Select(servers, old(v.lobbies)).value.name)
  {
    var cancelled := v.OnPreQueue(id, name, current, target, servers, statusChannel);
    var lobby := Select(servers, v.lobbies).value.name;
    v.ServerJoin(id, name, lobby);
    v.RunTask(|v.pending| - 1, Some(lobby), servers);
  }
}
