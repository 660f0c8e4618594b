/** A game lobby: a host, an ordered roster of player names without
    repeats that starts as just the host, and the two notices it sends to
    the roster's online members through the server. */
module Lobby {
  import opened Wire
  import opened MatchRules
  import opened Protocol
  import opened GameSocket

  // ---------------------------------------------------------------------------
  // The roster operations of java.util.List that the lobby uses
  // ---------------------------------------------------------------------------

  /** The roster after add: the name is appended only when absent. */
  function Added(xs: seq<string>, x: string): seq<string>
  {
    if x in xs then xs else xs + [x]
  }

  /** The position of the first occurrence of x. */
  function IndexOf(xs: seq<string>, x: string): (i: nat)
    requires x in xs
    ensures i < |xs| && xs[i] == x && x !in xs[..i]
  {
    if xs[0] == x then 0
    else
      var j := IndexOf(xs[1..], x);
      assert xs[..j + 1] == [xs[0]] + xs[1..][..j];
      j + 1
  }

  /** List.remove(Object): the first occurrence of x is deleted and the
      other names keep their order; an absent name leaves the list as it is. */
  function RemoveFirst(xs: seq<string>, x: string): (r: seq<string>)
    ensures x !in xs ==> r == xs
    ensures x in xs ==> r == xs[..IndexOf(xs, x)] + xs[IndexOf(xs, x) + 1..]
  {
    if |xs| == 0 then []
    else if xs[0] == x then xs[1..]
    else
      var r := [xs[0]] + RemoveFirst(xs[1..], x);
      assert x in xs ==> xs[..IndexOf(xs, x)] == [xs[0]] + xs[1..][..IndexOf(xs[1..], x)];
      r
  }

  /** Adding twice is adding once. */
  lemma AddedIdempotent(xs: seq<string>, x: string)
    ensures Added(Added(xs, x), x) == Added(xs, x)
  {
    assert x in Added(xs, x);
  }

  /** Adding keeps the roster free of repeats and contributes exactly x. */
  lemma AddedDistinct(xs: seq<string>, x: string)
    requires Distinct(xs)
    ensures Distinct(Added(xs, x))
    ensures forall y :: y in Added(xs, x) <==> y in xs || y == x
  {
    if x !in xs {
      var r := xs + [x];
      forall i, j | 0 <= i < j < |r| ensures r[i] != r[j] {
        if j == |xs| {
          assert r[i] == xs[i];
        }
      }
    }
  }

  /** Dropping position k of a list without repeats leaves a list without
      repeats. */
  lemma DropAtDistinct(xs: seq<string>, k: int)
    requires 0 <= k < |xs| && Distinct(xs)
    ensures Distinct(xs[..k] + xs[k + 1..])
  {
    var r := xs[..k] + xs[k + 1..];
    forall i, j | 0 <= i < j < |r| ensures r[i] != r[j] {
      assert r[i] == xs[if i < k then i else i + 1];
      assert r[j] == xs[if j < k then j else j + 1];
    }
  }

  /** Dropping position k removes exactly the name there when it occurs
      nowhere else. */
  lemma DropAtMembers(xs: seq<string>, k: int)
    requires 0 <= k < |xs| && Distinct(xs)
    ensures forall y :: y in xs[..k] + xs[k + 1..] <==> y in xs && y != xs[k]
  {
    var r := xs[..k] + xs[k + 1..];
    forall y | y in xs && y != xs[k] ensures y in r {
      var m :| 0 <= m < |xs| && xs[m] == y;
      assert r[if m < k then m else m - 1] == y;
    }
    forall y | y in r ensures y in xs && y != xs[k] {
      var m :| 0 <= m < |r| && r[m] == y;
      assert xs[if m < k then m else m + 1] == y;
    }
  }

  /** Removing from a roster without repeats drops exactly that name, keeps
      the roster free of repeats, and shortens it by one when it was there. */
  lemma RemoveFirstDistinct(xs: seq<string>, x: string)
    requires Distinct(xs)
    ensures Distinct(RemoveFirst(xs, x))
    ensures forall y :: y in RemoveFirst(xs, x) <==> y in xs && y != x
    ensures |RemoveFirst(xs, x)| == if x in xs then |xs| - 1 else |xs|
  {
    if x in xs {
      var k := IndexOf(xs, x);
      DropAtDistinct(xs, k);
      DropAtMembers(xs, k);
    }
  }

  /** Removing a name just added restores the roster. */
  lemma AddThenRemove(xs: seq<string>, x: string)
    requires x !in xs
    ensures RemoveFirst(Added(xs, x), x) == xs
  {
    var r := xs + [x];
    assert r[|xs|] == x;
    assert x !in r[..|xs|] by { assert r[..|xs|] == xs; }
  }

  /** Removing anyone but the first name keeps the first name first. */
  lemma RemoveFirstKeepsHead(xs: seq<string>, x: string)
    requires |xs| > 0 && xs[0] != x
    ensures |RemoveFirst(xs, x)| > 0 && RemoveFirst(xs, x)[0] == xs[0]
  {
    if x in xs {
      assert IndexOf(xs, x) > 0;
    }
  }

  /** Adding never moves the first name. */
  lemma AddedKeepsHead(xs: seq<string>, x: string)
    requires |xs| > 0
    ensures Added(xs, x)[0] == xs[0]
  {
  }

  /** A roster without repeats has as many entries as distinct names. */
  lemma CountIsDistinctNames(xs: seq<string>)
    ensures Distinct(xs) ==> |set p | p in xs| == |xs|
  {
    if Distinct(xs) {
      DistinctCard(xs);
    }
  }

  /** The online connections of the given names. */
  function OnlineOf(names: seq<string>, online: map<string, ClientHandler>): set<ClientHandler>
  {
    set p | p in names && p in online :: online[p]
  }

  lemma OnlineOfStep(names: seq<string>, i: int, online: map<string, ClientHandler>)
    requires 0 <= i < |names|
    ensures OnlineOf(names[..i + 1], online) == OnlineOf(names[..i], online)
      + (if names[i] in online then {online[names[i]]} else {})
  {
    assert names[..i + 1] == names[..i] + [names[i]];
  }

  /** A broadcast writes the reply to exactly the given connections. */
  lemma {:induction false} BroadcastReaches(hs: seq<ClientHandler>, reply: Reply)
    ensures forall d :: d in Broadcast(hs, reply) <==> d.reply == reply && d.to in hs
    decreases |hs|
  {
    if |hs| > 0 {
      var init := hs[..|hs| - 1];
      BroadcastReaches(init, reply);
      assert hs == init + [hs[|hs| - 1]];
    }
  }

  /** The handlers a roster traversal finds are the online connections of
      the roster's names. */
  lemma {:induction false} HandlersInOnline(names: seq<string>, online: map<string, ClientHandler>)
    ensures forall h :: h in HandlersIn(names, online) <==> h in OnlineOf(names, online)
    decreases |names|
  {
    if |names| > 0 {
      var init := names[..|names| - 1];
      HandlersInOnline(init, online);
      OnlineOfStep(names, |names| - 1, online);
      assert names[..|names|] == names;
    }
  }

  /** The lines a notice loop writes reach exactly the online members named,
      each carrying the notice. */
  lemma NoticeReaches(names: seq<string>, online: map<string, ClientHandler>, reply: Reply)
    ensures forall d :: d in Broadcast(HandlersIn(names, online), reply) <==>
      d.reply == reply && d.to in OnlineOf(names, online)
  {
    BroadcastReaches(HandlersIn(names, online), reply);
    HandlersInOnline(names, online);
  }

  // ---------------------------------------------------------------------------
  // GameLobby
  // ---------------------------------------------------------------------------

  class GameLobby {
    const lobbyId: string
    const host: string
    var players: seq<string>
    const server: GameServer
    /** Whether the host has been removed from the roster at some point. */
    ghost var hostRemoved: bool

    /** The roster has no repeats, and the host is first until it is removed. */
    ghost predicate Valid()
      reads this`players, this`hostRemoved
    {
      && Distinct(players)
      && (!hostRemoved ==> |players| > 0 && players[0] == host)
    }

    /** A new lobby's roster is the host alone. */
    constructor(lobbyId: string, host: string, server: GameServer)
      ensures Valid() && !hostRemoved
      ensures this.lobbyId == lobbyId && this.host == host && this.server == server
      ensures players == [host]
    {
      this.lobbyId := lobbyId;
      this.host := host;
      this.server := server;
      players := [host];
      hostRemoved := false;
    }

    method AddPlayer(player: string)
      requires Valid()
      modifies this`players
      ensures Valid()
      ensures players == Added(old(players), player)
    {
      if player !in players {
        players := players + [player];
      }
      AddedDistinct(old(players), player);
    }

    method RemovePlayer(player: string)
      requires Valid()
      modifies this`players, this`hostRemoved
      ensures Valid()
      ensures players == RemoveFirst(old(players), player)
      ensures hostRemoved == (old(hostRemoved) || player == host)
    {
      RemoveFirstDistinct(players, player);
      if !hostRemoved && player != host {
        RemoveFirstKeepsHead(players, player);
      }
      players := RemoveFirst(players, player);
      hostRemoved := hostRemoved || player == host;
    }

    /** getPlayerCount: the length of the roster, which in a valid lobby is
        the number of distinct players. */
    function GetPlayerCount(): (n: nat)
      reads this`players, this`hostRemoved
      ensures n == |players|
      ensures Valid() ==> n == |set p | p in players|
    {
      CountIsDistinctNames(players);
      |players|
    }

    /** The online connections of the roster's members. */
    function Members(): set<ClientHandler>
      reads this`players, server`onlineClients
    {
      OnlineOf(players, server.onlineClients)
    }

    /** startLobby: every online member gets LOBBY_READY with the roster and
        is marked busy and in this lobby, in roster order; then everyone gets
        the presence line, which now shows those members as busy. */
    method StartLobby()
      requires server.Registry()
      modifies Members()`inGame, Members()`currentLobbyId, server`outbox
      ensures forall h :: h in Members() ==> h.inGame && h.currentLobbyId == Some(lobbyId)
      ensures server.outbox == old(server.outbox)
        + Broadcast(HandlersIn(players, server.onlineClients), LobbyReady(lobbyId, host, players))
        + server.Announcement()
    {
      var reply := LobbyReady(lobbyId, host, players);
      var i := 0;
      while i < |players|
        invariant 0 <= i <= |players|
        invariant forall h :: h in OnlineOf(players[..i], server.onlineClients) ==>
          h.inGame && h.currentLobbyId == Some(lobbyId)
        invariant server.outbox == old(server.outbox) + Broadcast(HandlersIn(players[..i], server.onlineClients), reply)
      {
        var client := server.Handler(players[i]);
        OnlineOfStep(players, i, server.onlineClients);
        HandlersInStep(players, i, server.onlineClients);
        if client.Some? {
          BroadcastStep(old(server.outbox), server.outbox, players, i, server.onlineClients, reply);
          client.value.SendMessage(reply);
          client.value.SetCurrentLobbyId(Some(lobbyId));
          client.value.SetInGame(true);
        } else {
          assert HandlersIn(players[..i + 1], server.onlineClients) == HandlersIn(players[..i], server.onlineClients);
        }
        i := i + 1;
      }
      assert players[..i] == players;
      server.BroadcastOnlineUsers();
    }

    /** notifyPlayersUpdate: every online member gets LOBBY_UPDATE with the
        roster, in roster order; nothing else changes. */
    method NotifyPlayersUpdate()
      requires server.Registry()
      modifies server`outbox
      ensures server.outbox == old(server.outbox)
        + Broadcast(HandlersIn(players, server.onlineClients), LobbyUpdate(lobbyId, host, players))
    {
      var reply := LobbyUpdate(lobbyId, host, players);
      var i := 0;
      while i < |players|
        invariant 0 <= i <= |players|
        invariant server.outbox == old(server.outbox) + Broadcast(HandlersIn(players[..i], server.onlineClients), reply)
      {
        var client := server.Handler(players[i]);
        NoticeStep(old(server.outbox), server.outbox, players, i, server.onlineClients, reply);
        if client.Some? {
          client.value.SendMessage(reply);
        }
        i := i + 1;
      }
      assert players[..i] == players;
    }
  }
}
