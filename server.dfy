/** The game server: one ClientHandler per connection, the GameServer that
    keeps the presence registry and the active matches, and one GameSession
    per match. A socket write is an entry appended to the server's outbox; the
    users table is a map; the clock and the random board are parameters. */
module GameSocket {
  import opened Wire
  import opened MatchRules
  import opened Protocol

  /** One line written to one connection: the characters are Text(reply). */
  datatype Delivery = Delivery(to: ClientHandler, reply: Reply)

  /** A line to a connection that may be offline (a null handler): nothing
      is written when it is. */
  function To(h: Option<ClientHandler>, reply: Reply): seq<Delivery>
  {
    if h.Some? then [Delivery(h.value, reply)] else []
  }

  function Broadcast(hs: seq<ClientHandler>, reply: Reply): seq<Delivery>
  {
    if |hs| == 0 then [] else Broadcast(hs[..|hs| - 1], reply) + [Delivery(hs[|hs| - 1], reply)]
  }

  /** The handlers of the given names, in that order, skipping names that are
      not online. */
  function HandlersIn(names: seq<string>, online: map<string, ClientHandler>): seq<ClientHandler>
  {
    if |names| == 0 then []
    else HandlersIn(names[..|names| - 1], online)
         + (if names[|names| - 1] in online then [online[names[|names| - 1]]] else [])
  }

  function Lookup(online: map<string, ClientHandler>, name: string): Option<ClientHandler>
  {
    if name in online then Some(online[name]) else None
  }

  /** The ids "GAME_1", "GAME_2", ... handed out by the counter. */
  function GameIdOf(n: int): string
  {
    "GAME_" + IntToString(n)
  }

  /** Distinct counter values give distinct game ids. */
  lemma GameIdOfInjective(a: int, b: int)
    requires GameIdOf(a) == GameIdOf(b)
    ensures a == b
  {
    assert IntToString(a) == GameIdOf(a)[5..];
    assert IntToString(b) == GameIdOf(b)[5..];
    IntToStringInjective(a, b);
  }

  /** The roster without the given name; the others keep their order. */
  function Without(xs: seq<string>, x: string): (r: seq<string>)
    ensures forall y :: y in r <==> y in xs && y != x
  {
    if |xs| == 0 then []
    else if xs[|xs| - 1] == x then Without(xs[..|xs| - 1], x)
    else Without(xs[..|xs| - 1], x) + [xs[|xs| - 1]]
  }

  /** The presence registry of a server: every online handler belongs to it,
      and the traversal order lists each online name exactly once. */
  ghost predicate Roster(online: map<string, ClientHandler>, order: seq<string>, server: GameServer)
  {
    && (forall u :: u in online ==> online[u].server == server)
    && (forall u :: u in online <==> u in order)
    && Unique(order)
  }

  lemma RosterAdd(online: map<string, ClientHandler>, order: seq<string>, server: GameServer,
                  name: string, handler: ClientHandler)
    requires Roster(online, order, server) && handler.server == server
    ensures Roster(online[name := handler], if name in order then order else order + [name], server)
  {
    if name !in order {
      UniqueSnoc(order, name);
    }
  }

  lemma RosterRemove(online: map<string, ClientHandler>, order: seq<string>, server: GameServer, name: string)
    requires Roster(online, order, server)
    ensures Roster(online - {name}, Without(order, name), server)
  {
    WithoutUnique(order, name);
  }

  /** No name occurs twice: each is absent from the names before it. */
  ghost predicate Unique(xs: seq<string>)
  {
    |xs| == 0 || (xs[|xs| - 1] !in xs[..|xs| - 1] && Unique(xs[..|xs| - 1]))
  }

  /** Unique is the pairwise form of distinctness. */
  lemma {:induction false} UniqueIsDistinct(xs: seq<string>)
    ensures Unique(xs) <==> Distinct(xs)
  {
    if |xs| > 0 {
      var init := xs[..|xs| - 1];
      UniqueIsDistinct(init);
      if Distinct(xs) {
        assert Distinct(init) by {
          forall i, j | 0 <= i < j < |init| ensures init[i] != init[j] {
            assert init[i] == xs[i] && init[j] == xs[j];
          }
        }
        assert xs[|xs| - 1] !in init by {
          forall k | 0 <= k < |init| ensures init[k] != xs[|xs| - 1] {
            assert init[k] == xs[k];
          }
        }
      }
      if Unique(xs) {
        forall i, j | 0 <= i < j < |xs| ensures xs[i] != xs[j] {
          assert xs[i] == init[i];
          if j < |init| {
            assert xs[j] == init[j];
          } else {
            assert xs[i] in init;
          }
        }
      }
    }
  }

  lemma UniqueSnoc(xs: seq<string>, x: string)
    requires Unique(xs) && x !in xs
    ensures Unique(xs + [x])
  {
    assert (xs + [x])[..|xs|] == xs;
  }

  /** Removing a name keeps a roster free of repeats. */
  lemma {:induction false} WithoutUnique(xs: seq<string>, x: string)
    requires Unique(xs)
    ensures Unique(Without(xs, x))
  {
    if |xs| > 0 {
      var init := xs[..|xs| - 1];
      WithoutUnique(init, x);
      if xs[|xs| - 1] != x {
        var w := Without(init, x);
        assert (w + [xs[|xs| - 1]])[..|w|] == w;
      }
    }
  }

  /** getUserTotalScore: 0 for a name without a row. */
  function TotalScore(users: map<string, UserRow>, name: string): int
  {
    if name in users then users[name].totalScore else 0
  }

  /** One presence row per online name, in the given order; BUSY exactly when
      that connection is in a game. */
  function PresenceIn(names: seq<string>, online: map<string, ClientHandler>, users: map<string, UserRow>): seq<Presence>
    reads online.Values
  {
    if |names| == 0 then []
    else
      var name := names[|names| - 1];
      PresenceIn(names[..|names| - 1], online, users)
        + (if name in online then [Presence(name, TotalScore(users, name), online[name].inGame)] else [])
  }

  lemma PresenceInStep(names: seq<string>, i: int, online: map<string, ClientHandler>, users: map<string, UserRow>)
    requires 0 <= i < |names|
    ensures PresenceIn(names[..i + 1], online, users) == PresenceIn(names[..i], online, users)
      + (if names[i] in online then [Presence(names[i], TotalScore(users, names[i]), online[names[i]].inGame)] else [])
  {
    assert names[..i + 1][..i] == names[..i];
  }

  /** One iteration of the presence-line loop appends the row of the next
      online name. */
  lemma OnlineRowStep(line: string, rows: seq<Presence>, names: seq<string>, i: int,
                      online: map<string, ClientHandler>, users: map<string, UserRow>)
    requires 0 <= i < |names| && names[i] in online
    requires rows == PresenceIn(names[..i], online, users) && line == OnlineUsersLine(rows)
    ensures var p := Presence(names[i], TotalScore(users, names[i]), online[names[i]].inGame);
      && rows + [p] == PresenceIn(names[..i + 1], online, users)
      && line + PresenceRow(p) == OnlineUsersLine(rows + [p])
  {
    var p := Presence(names[i], TotalScore(users, names[i]), online[names[i]].inGame);
    PresenceInStep(names, i, online, users);
    RowsSnoc(rows, p);
    ConcatAssoc("ONLINE_USERS:", Rows(rows), PresenceRow(p));
  }

  /** One iteration of a broadcast loop writes to the next online name. */
  lemma BroadcastStep(outbox0: seq<Delivery>, outbox: seq<Delivery>, names: seq<string>, i: int,
                      online: map<string, ClientHandler>, reply: Reply)
    requires 0 <= i < |names| && names[i] in online
    requires outbox == outbox0 + Broadcast(HandlersIn(names[..i], online), reply)
    ensures outbox + [Delivery(online[names[i]], reply)] == outbox0 + Broadcast(HandlersIn(names[..i + 1], online), reply)
  {
    HandlersInStep(names, i, online);
    BroadcastSnoc(HandlersIn(names[..i], online), online[names[i]], reply);
  }

  /** One turn of a notice loop over names: the outbox so far, plus the
      notice to the i-th name's connection when it is online. */
  lemma NoticeStep(outbox0: seq<Delivery>, outbox: seq<Delivery>, names: seq<string>, i: int,
                   online: map<string, ClientHandler>, reply: Reply)
    requires 0 <= i < |names|
    requires outbox == outbox0 + Broadcast(HandlersIn(names[..i], online), reply)
    ensures outbox + (if names[i] in online then [Delivery(online[names[i]], reply)] else [])
         == outbox0 + Broadcast(HandlersIn(names[..i + 1], online), reply)
  {
    HandlersInStep(names, i, online);
    if names[i] in online {
      BroadcastStep(outbox0, outbox, names, i, online, reply);
    } else {
      assert HandlersIn(names[..i + 1], online) == HandlersIn(names[..i], online);
      assert outbox + [] == outbox;
    }
  }

  /** The StringBuilder of startGame after visiting the first n cells: each
      rice index followed by ':'. */
  function RiceBuilt(grains: seq<GrainType>, n: nat): string
    requires n <= |grains|
  {
    if n == 0 then "" else RiceBuilt(grains, n - 1) + (if grains[n - 1] == Rice then IntToString(n - 1) + ":" else "")
  }

  lemma {:induction false} RiceBuiltIsTerminated(grains: seq<GrainType>, n: nat)
    requires n <= |grains|
    ensures RiceBuilt(grains, n) == Terminated(Numerals(RiceList(grains, n)), ":")
  {
    if n > 0 {
      RiceBuiltIsTerminated(grains, n - 1);
      RiceBuilderStep(grains, n - 1, RiceBuilt(grains, n - 1));
    }
  }

  /** One iteration of the rice-position loop of startGame. */
  lemma RiceBuilderStep(grains: seq<GrainType>, i: int, builder: string)
    requires 0 <= i < |grains|
    requires builder == Terminated(Numerals(RiceList(grains, i)), ":")
    ensures grains[i] == Rice ==> builder + IntToString(i) + ":" == Terminated(Numerals(RiceList(grains, i + 1)), ":")
    ensures grains[i] != Rice ==> builder == Terminated(Numerals(RiceList(grains, i + 1)), ":")
  {
    var before := RiceList(grains, i);
    if grains[i] == Rice {
      assert RiceList(grains, i + 1) == before + [i];
      NumeralsAppend(before, i);
      var ns := Numerals(before) + [IntToString(i)];
      assert ns[..|ns| - 1] == Numerals(before);
      assert ns[|ns| - 1] == IntToString(i);
    } else {
      assert RiceList(grains, i + 1) == before + [];
      assert before + [] == before;
    }
  }

  /** Dropping the last ':' of the loop's result leaves the rice string. */
  lemma RiceBuilderDone(grains: seq<GrainType>, builder: string)
    requires builder == Terminated(Numerals(RiceList(grains, |grains|)), ":")
    ensures |builder| > 0 ==> builder[..|builder| - 1] == RiceString(grains)
    ensures |builder| == 0 ==> RiceString(grains) == ""
  {
    TerminatedDropSep(Numerals(RiceList(grains, |grains|)), ":");
  }

  lemma ConcatAssoc(a: string, b: string, c: string)
    ensures a + b + c == a + (b + c)
  {
  }

  lemma HandlersInStep(names: seq<string>, i: int, online: map<string, ClientHandler>)
    requires 0 <= i < |names|
    ensures HandlersIn(names[..i + 1], online) == HandlersIn(names[..i], online)
      + (if names[i] in online then [online[names[i]]] else [])
  {
    assert names[..i + 1][..i] == names[..i];
  }

  lemma RowsSnoc(ps: seq<Presence>, p: Presence)
    ensures Rows(ps + [p]) == Rows(ps) + PresenceRow(p)
  {
    assert (ps + [p])[..|ps|] == ps;
  }

  lemma BroadcastSnoc(hs: seq<ClientHandler>, h: ClientHandler, reply: Reply)
    ensures Broadcast(hs + [h], reply) == Broadcast(hs, reply) + [Delivery(h, reply)]
  {
    assert (hs + [h])[..|hs|] == hs;
  }

  function OptionSet(h: Option<ClientHandler>): set<ClientHandler>
  {
    if h.Some? then {h.value} else {}
  }


  /** The server state a match ending touches, besides the outbox and the
      players' flags. */
  datatype Tables = Tables(onlineClients: map<string, ClientHandler>, order: seq<string>,
                           activeSessions: map<string, GameSession>, gameIdCounter: int,
                           users: map<string, UserRow>, results: seq<GameRecord>)

  /** The tables after endGame's bookkeeping for `rec`. */
  function Close(t: Tables, rec: GameRecord): Tables
  {
    t.(activeSessions := t.activeSessions - {rec.gameId}, users := SaveStats(t.users, rec), results := t.results + [rec])
  }

  // ===========================================================================
  // ClientHandler
  // ===========================================================================

  class ClientHandler {
    const server: GameServer
    var username: Option<string>
    var inGame: bool
    var currentGameId: Option<string>
    var currentLobbyId: Option<string>

    /** A new connection: not logged in and not in a game. */
    constructor(server: GameServer)
      ensures this.server == server
      ensures username == None && !inGame && currentGameId == None && currentLobbyId == None
    {
      this.server := server;
      username := None;
      inGame := false;
      currentGameId := None;
      currentLobbyId := None;
    }

    /** sendMessage: one line, Text(reply), to this connection. */
    method SendMessage(reply: Reply)
      modifies server`outbox
      ensures server.outbox == old(server.outbox) + [Delivery(this, reply)]
    {
      server.outbox := server.outbox + [Delivery(this, reply)];
    }

    method SetInGame(b: bool)
      modifies this`inGame
      ensures inGame == b
    {
      inGame := b;
    }

    method SetCurrentGameId(g: Option<string>)
      modifies this`currentGameId
      ensures currentGameId == g
    {
      currentGameId := g;
    }

    method SetCurrentLobbyId(l: Option<string>)
      modifies this`currentLobbyId
      ensures currentLobbyId == l
    {
      currentLobbyId := l;
    }

    /** Only `lines` were written: this connection and the server's registry,
        matches and tables are as they were. */
    twostate predicate Told(new lines: seq<Delivery>)
      reads this, server
    {
      && unchanged(this)
      && server.Snapshot() == old(server.Snapshot())
      && server.outbox == old(server.outbox) + lines
    }

    /** What handleLogin did: nothing unless the data holds two fields; a
        refusal when the credentials do not match a row or the name is
        already online; otherwise this connection is registered under the
        name, everyone gets the presence line and then LOGIN_SUCCESS. */
    twostate predicate LoginDone(data: string)
      reads this, server, server.onlineClients.Values
    {
      match Credentials(data)
      case None => unchanged(this, server)
      case Some((user, password)) =>
        if !old(server.AuthenticateUser(user, password)) then Told([Delivery(this, LoginFailedInvalid)])
        else if user in old(server.onlineClients) then Told([Delivery(this, LoginFailedOnline)])
        else
          && username == Some(user) && inGame == old(inGame) && currentGameId == old(currentGameId)
          && server.Snapshot() == old(server.Snapshot()).(onlineClients := old(server.onlineClients)[user := this],
                                                          order := old(server.order) + [user])
          && server.outbox == old(server.outbox) + server.Announcement() + [Delivery(this, LoginSuccess(user))]
    }

    /** What handleRegister did: nothing unless the data holds two fields;
        otherwise a new row with zero statistics when the name is free, and
        the answer saying which. */
    twostate predicate RegisterDone(data: string)
      reads this, server
    {
      match Credentials(data)
      case None => unchanged(this, server)
      case Some((user, password)) =>
        var isNew := user !in old(server.users);
        && unchanged(this)
        && server.Snapshot() == old(server.Snapshot()).(users :=
             if isNew then old(server.users)[user := UserRow(password, 0, 0, 0)] else old(server.users))
        && server.outbox == old(server.outbox) + [Delivery(this, if isNew then RegisterSuccess else RegisterFailed)]
    }

    method HandleLogin(data: string)
      requires server.Valid()
      modifies this`username, server`onlineClients, server`order, server`outbox
      ensures server.Valid()
      ensures LoginDone(data)
    {
      var credentials := Credentials(data);
      if credentials.Some? {
        var (user, password) := credentials.value;
        if server.AuthenticateUser(user, password) {
          if user in server.onlineClients {
            SendMessage(LoginFailedOnline);
          } else {
            Enter(user);
          }
        } else {
          SendMessage(LoginFailedInvalid);
        }
      }
    }

    /** The success path of handleLogin: the name is taken by this handler,
        the presence line goes to all, then LOGIN_SUCCESS to this user. */
    method Enter(user: string)
      requires server.Valid() && user !in server.onlineClients
      modifies this`username, server`onlineClients, server`order, server`outbox
      ensures server.Valid()
      ensures username == Some(user)
      ensures server.Snapshot() == old(server.Snapshot()).(onlineClients := old(server.onlineClients)[user := this],
                                                          order := old(server.order) + [user])
      ensures server.outbox == old(server.outbox) + server.Announcement() + [Delivery(this, LoginSuccess(user))]
    {
      username := Some(user);
      ghost var before := server.Snapshot();
      assert user !in server.order;
      server.AddClient(user, this);
      ghost var after := server.Snapshot();
      assert after == before.(onlineClients := before.onlineClients[user := this], order := before.order + [user]);
      SendMessage(LoginSuccess(user));
      assert server.Snapshot() == after;
    }

    method HandleRegister(data: string)
      modifies server`users, server`outbox
      ensures RegisterDone(data)
    {
      var credentials := Credentials(data);
      if credentials.Some? {
        var (user, password) := credentials.value;
        var ok := server.RegisterUser(user, password);
        if ok {
          SendMessage(RegisterSuccess);
        } else {
          SendMessage(RegisterFailed);
        }
      }
    }

    /** The session of the game this connection is in, when registered. */
    function Game(): set<GameSession>
      reads this`currentGameId, server`activeSessions
    {
      if currentGameId.Some? then server.SessionAt(currentGameId.value) else {}
    }

    /** The online connections of that session's players. */
    function Mates(): set<ClientHandler>
      reads this`currentGameId, server`activeSessions, server`onlineClients
    {
      if currentGameId.Some? then server.PlayersAt(currentGameId.value) else {}
    }

    /** handleGameAction: a click on the cell the data names, in the game
        this connection is in; nothing outside a game or when the data is
        not an int. */
    method HandleGameAction(data: string, now: int) returns (thrown: bool)
      requires server.Valid()
      modifies Game()`score1, Game()`score2, Game()`clicks1, Game()`clicks2,
               Game()`allRiceClickedPositions, Game()`gameEnded, Game()`timerArmed,
               server`activeSessions, server`users, server`results, server`outbox,
               Mates()`inGame, Mates()`currentGameId
      ensures server.Valid()
      ensures old(currentGameId).None? || ParseInt(data).None? ==>
        !thrown && unchanged(server) && unchanged(old(Game())) && unchanged(old(Mates()))
      ensures old(currentGameId).Some? && ParseInt(data).Some? ==>
        var g := old(currentGameId).value;
        && (g !in old(server.activeSessions) ==> !thrown && unchanged(server))
        && (g in old(server.activeSessions) ==>
              old(server.activeSessions)[g].ActionDone(username, ParseInt(data).value, now, thrown))
    {
      thrown := false;
      if currentGameId.Some? {
        var index := ParseInt(data);
        if index.Some? {
          thrown := server.HandleGameAction(currentGameId.value, username, index.value, now);
        }
      }
    }

    /** handleQuitGame: in a game, the session handles the quit; unless that
        throws, this connection leaves the game and everyone gets the
        presence line. `written` is what the session's quit wrote. */
    method HandleQuitGame(now: int) returns (thrown: bool, ghost written: seq<Delivery>)
      requires server.Valid()
      modifies this`inGame, this`currentGameId, Game()`gameEnded, Game()`timerArmed,
               server`activeSessions, server`users, server`results, server`outbox,
               Mates()`inGame, Mates()`currentGameId
      ensures server.Valid()
      ensures !(old(inGame) && old(currentGameId).Some?) ==>
        !thrown && written == [] && unchanged(this, server) && unchanged(old(Game()))
      ensures old(inGame) && old(currentGameId).Some? ==>
        var g := old(currentGameId).value;
        && (g !in old(server.activeSessions) ==> !thrown && written == [] && server.Snapshot() == old(server.Snapshot()))
        && (g in old(server.activeSessions) ==>
              && old(server.activeSessions)[g].QuitOutcome(username, now, thrown, written)
              && (thrown <==> !old(server.activeSessions[g].gameEnded) && username.None?)
              && old(server.activeSessions)[g].gameEnded)
        && (thrown ==> inGame && currentGameId == old(currentGameId) && server.outbox == old(server.outbox))
        && (!thrown ==> !inGame && currentGameId == None
                        && server.outbox == old(server.outbox) + written + server.Announcement())
    {
      if !(inGame && currentGameId.Some?) {
        return false, [];
      }
      thrown, written := QuitSession(now);
      if !thrown {
        LeaveGame();
      }
    }

    /** server.handlePlayerQuit for the game this connection is in. */
    method QuitSession(now: int) returns (thrown: bool, ghost written: seq<Delivery>)
      requires server.Valid() && inGame && currentGameId.Some?
      modifies Game()`gameEnded, Game()`timerArmed,
               server`activeSessions, server`users, server`results, server`outbox,
               Mates()`inGame, Mates()`currentGameId
      ensures server.Valid()
      ensures var g := old(currentGameId).value;
        && (g !in old(server.activeSessions) ==> !thrown && written == [] && server.Snapshot() == old(server.Snapshot()))
        && (g in old(server.activeSessions) ==>
              && old(server.activeSessions)[g].QuitOutcome(username, now, thrown, written)
              && (thrown <==> !old(server.activeSessions[g].gameEnded) && username.None?)
              && old(server.activeSessions)[g].gameEnded)
      ensures server.outbox == old(server.outbox) + written
      ensures thrown ==> unchanged(this) && written == []
    {
      var g := currentGameId.value;
      ghost var sessions, before := server.activeSessions, server.outbox;
      thrown := server.HandlePlayerQuit(g, username, now);
      written := server.outbox[|before|..];
      if g in sessions {
        sessions[g].QuitKept((username, now, thrown));
        assert sessions[g].QuitOutcome(username, now, thrown, written);
      } else {
        assert written == [];
      }
    }

    /** The connections an invitation response may put into a game. */
    function Partners(command: Command): set<ClientHandler>
      reads this`username, server`onlineClients
    {
      match command
      case AcceptInvitation(inviter) => server.Invited(inviter, username)
      case RejectInvitation(inviter) => server.Invited(inviter, username)
      case _ => {}
    }

    /** What handleMessage did for `command`, case by case: `session` is the
        game an acceptance started and `written` what a quit's session wrote. */
    twostate predicate Handled(command: Command, now: int, thrown: bool,
                               new session: Option<GameSession>, new written: seq<Delivery>)
      reads *
    {
      && (!command.AcceptInvitation? ==> session.None?)
      && (!command.QuitGame? ==> written == [])
      && match command
        case Login(data) => !thrown && LoginDone(data)
        case Register(data) => !thrown && RegisterDone(data)
        case GetOnlineUsers => !thrown && Told([Delivery(this, server.OnlineLine())])
        case Invite(invitee) =>
          && !thrown
          && Told(if invitee in server.onlineClients && !server.onlineClients[invitee].inGame
                  then [Delivery(server.onlineClients[invitee], GameInvitation(username))] else [])
        case AcceptInvitation(inviter) =>
          && (thrown <==> inviter in old(server.onlineClients) && username.None?)
          && (session.Some? <==> inviter in old(server.onlineClients) && username.Some?)
          && (inviter !in old(server.onlineClients) ==> unchanged(this, server))
          && (session.Some? ==>
                && fresh(session.value) && session.value.player1 == inviter && session.value.player2 == username.value
                && server.Registered(session.value, old(server.gameIdCounter), old(server.activeSessions))
                && server.Started(session.value, old(server.outbox), now))
        case RejectInvitation(inviter) =>
          !thrown && Told(To(server.Handler(inviter), InvitationRejected(username)))
        case GameAction(data) =>
          && (old(currentGameId).None? || ParseInt(data).None? ==> !thrown && unchanged(server))
          && (old(currentGameId).Some? && ParseInt(data).Some? ==>
                var g := old(currentGameId).value;
                && (g !in old(server.activeSessions) ==> !thrown && unchanged(server))
                && (g in old(server.activeSessions) ==>
                      var s := old(server.activeSessions)[g];
                      s.Valid() && s.ActionDone(old(username), ParseInt(data).value, now, thrown)))
        case GetLeaderboard => !thrown && Told([Delivery(this, Leaderboard(server.GetLeaderboard()))])
        case PrivateMessage(data) =>
          (match ChatRequest(data)
           case None => !thrown && unchanged(this, server)
           case Some((recipient, text)) =>
             && unchanged(this) && server.Snapshot() == old(server.Snapshot())
             && (thrown <==> recipient !in server.onlineClients && username.None?)
             && server.outbox == old(server.outbox) +
                  if recipient in server.onlineClients
                  then [Delivery(server.onlineClients[recipient], IncomingMessage(username, text))]
                  else if username.Some? then To(server.Handler(username.value), RecipientOffline(recipient))
                  else [])
        case QuitGame =>
          if !(old(inGame) && old(currentGameId).Some?) then !thrown && unchanged(this, server)
          else
            var g := old(currentGameId).value;
            && (g !in old(server.activeSessions) ==> !thrown && written == [])
            && (g in old(server.activeSessions) ==>
                  old(server.activeSessions)[g].QuitOutcome(old(username), now, thrown, written))
            && (thrown ==> inGame && currentGameId == old(currentGameId) && server.outbox == old(server.outbox))
            && (!thrown ==> !inGame && currentGameId == None
                            && server.outbox == old(server.outbox) + written + server.Announcement())
        case Unrecognised => !thrown && unchanged(this, server)
    }

    /** The commands that touch a game. */
    static predicate GameCommand(command: Command)
    {
      command.AcceptInvitation? || command.RejectInvitation? || command.GameAction? || command.QuitGame?
    }

    /** handleMessage: the command word of the line selects what happens;
        an unknown word does nothing. The board of a game an acceptance
        starts, and the clock, are parameters. */
    method HandleMessage(line: string, placement: Placement, now: int)
      returns (thrown: bool, ghost session: Option<GameSession>, ghost written: seq<Delivery>)
      requires server.Valid() && ValidPlacement(placement)
      modifies this`username, this`inGame, this`currentGameId,
               server`onlineClients, server`order, server`activeSessions, server`gameIdCounter,
               server`users, server`results, server`outbox,
               Game()`score1, Game()`score2, Game()`clicks1, Game()`clicks2,
               Game()`allRiceClickedPositions, Game()`gameEnded, Game()`timerArmed,
               Mates()`inGame, Mates()`currentGameId,
               Partners(ParseCommand(line))`inGame, Partners(ParseCommand(line))`currentGameId
      ensures server.Valid()
      ensures Handled(ParseCommand(line), now, thrown, session, written)
    {
      var command := ParseCommand(line);
      session, written := None, [];
      if command.AcceptInvitation? || command.RejectInvitation? {
        thrown, session := HandleResponseCommand(command, placement, now);
      } else if command.GameAction? {
        thrown := HandleActionCommand(command, now);
      } else if command.QuitGame? {
        thrown, written := HandleQuitCommand(now);
      } else {
        thrown := HandleAccountCommand(command, now);
      }
    }

    /** The commands that do not touch a game. */
    method HandleAccountCommand(command: Command, now: int) returns (thrown: bool)
      requires server.Valid() && !GameCommand(command)
      modifies this`username, server`onlineClients, server`order, server`users, server`outbox
      ensures server.Valid()
      ensures Handled(command, now, thrown, None, [])
    {
      thrown := false;
      match command
      case Login(data) =>
        HandleLogin(data);
      case Register(data) =>
        HandleRegister(data);
      case GetOnlineUsers =>
        server.SendOnlineUsersToClient(this);
      case Invite(invitee) =>
        server.HandleGameInvitation(username, invitee);
      case GetLeaderboard =>
        SendMessage(Leaderboard(server.GetLeaderboard()));
      case PrivateMessage(data) =>
        var chat := ChatRequest(data);
        if chat.Some? {
          var (recipient, text) := chat.value;
          thrown := server.SendPrivateMessage(username, recipient, text);
        }
      case Unrecognised =>
    }

    /** ACCEPT_INVITATION and REJECT_INVITATION. */
    method HandleResponseCommand(command: Command, placement: Placement, now: int)
      returns (thrown: bool, ghost session: Option<GameSession>)
      requires server.Valid() && ValidPlacement(placement)
      requires command.AcceptInvitation? || command.RejectInvitation?
      modifies server`activeSessions, server`gameIdCounter, server`outbox,
               Partners(command)`inGame, Partners(command)`currentGameId
      ensures server.Valid()
      ensures Handled(command, now, thrown, session, [])
    {
      thrown, session := server.HandleInvitationResponse(username, command.inviter, command.AcceptInvitation?, placement, now);
    }

    /** GAME_ACTION. */
    method HandleActionCommand(command: Command, now: int) returns (thrown: bool)
      requires server.Valid() && command.GameAction?
      modifies Game()`score1, Game()`score2, Game()`clicks1, Game()`clicks2,
               Game()`allRiceClickedPositions, Game()`gameEnded, Game()`timerArmed,
               server`activeSessions, server`users, server`results, server`outbox,
               Mates()`inGame, Mates()`currentGameId
      ensures server.Valid()
      ensures Handled(command, now, thrown, None, [])
    {
      thrown := HandleGameAction(command.data, now);
    }

    /** QUIT_GAME. */
    method HandleQuitCommand(now: int) returns (thrown: bool, ghost written: seq<Delivery>)
      requires server.Valid()
      modifies this`inGame, this`currentGameId, Game()`gameEnded, Game()`timerArmed,
               server`activeSessions, server`users, server`results, server`outbox,
               Mates()`inGame, Mates()`currentGameId
      ensures server.Valid()
      ensures Handled(QuitGame, now, thrown, None, written)
    {
      thrown, written := HandleQuitGame(now);
    }

    /** cleanup: the name leaves the registry, then a game in progress is
        quit; the match of that game has ended whatever happened. */
    method Cleanup(now: int) returns (thrown: bool)
      requires server.Valid()
      modifies server`onlineClients, server`order,
               this`inGame, this`currentGameId, Game()`gameEnded, Game()`timerArmed,
               server`activeSessions, server`users, server`results, server`outbox,
               Mates()`inGame, Mates()`currentGameId
      ensures server.Valid()
      ensures username.Some? ==>
        server.onlineClients == old(server.onlineClients) - {username.value}
        && server.order == Without(old(server.order), username.value)
      ensures username.None? ==> server.onlineClients == old(server.onlineClients) && server.order == old(server.order)
      ensures !(old(inGame) && old(currentGameId).Some?) ==>
        && !thrown && inGame == old(inGame) && currentGameId == old(currentGameId)
        && server.activeSessions == old(server.activeSessions)
        && server.outbox == old(server.outbox) + (if username.Some? then server.Announcement() else [])
      ensures old(inGame) && old(currentGameId).Some? ==>
        var g := old(currentGameId).value;
        && (g in old(server.activeSessions) ==> old(server.activeSessions)[g].gameEnded)
        && (thrown <==> g in old(server.activeSessions) && !old(server.activeSessions[g].gameEnded) && username.None?)
        && (thrown ==> inGame && currentGameId == old(currentGameId))
        && (!thrown ==> !inGame && currentGameId == None)
    {
      thrown := false;
      if username.Some? {
        server.RemoveClient(username.value);
      }
      if inGame && currentGameId.Some? {
        ghost var g := currentGameId.value;
        ghost var sessions := server.activeSessions;
        ghost var wasEnded := g in sessions && sessions[g].gameEnded;
        ghost var written;
        thrown, written := HandleQuitGame(now);
        assert g in sessions ==> sessions[g].gameEnded;
        assert thrown <==> g in sessions && !wasEnded && username.None?;
      }
    }

    /** The handler's own reset after a quit, and the presence line to all. */
    method LeaveGame()
      requires server.Registry()
      modifies this`inGame, this`currentGameId, server`outbox
      ensures !inGame && currentGameId == None
      ensures server.outbox == old(server.outbox) + server.Announcement()
    {
      SetInGame(false);
      SetCurrentGameId(None);
      server.BroadcastOnlineUsers();
    }
  }

  // ===========================================================================
  // GameServer
  // ===========================================================================

  class GameServer {
    /** The online connections by user name. */
    var onlineClients: map<string, ClientHandler>
    /** The order in which a traversal of onlineClients visits the names. */
    var order: seq<string>
    var activeSessions: map<string, GameSession>
    var gameIdCounter: int
    /** The users table. */
    var users: map<string, UserRow>
    /** The game_results table. */
    var results: seq<GameRecord>
    /** Every line written to any connection, in order. */
    var outbox: seq<Delivery>
    /** The LEADERBOARD reply as a function of the users table. */
    const leaderboard: map<string, UserRow> -> string

    constructor(users: map<string, UserRow>, leaderboard: map<string, UserRow> -> string)
      ensures Valid()
      ensures onlineClients == map[] && order == [] && activeSessions == map[]
      ensures gameIdCounter == 1 && this.users == users && results == [] && outbox == []
      ensures this.leaderboard == leaderboard
    {
      onlineClients := map[];
      order := [];
      activeSessions := map[];
      gameIdCounter := 1;
      this.users := users;
      results := [];
      outbox := [];
      this.leaderboard := leaderboard;
    }

    /** A session registered under id g: it belongs to this server, carries
        g as its id, and g was made from a counter value already handed out. */
    ghost predicate SessionOk(g: string, s: GameSession)
      reads this`gameIdCounter
    {
      && s.server == this && s.gameId == g && s.Valid()
      && 1 <= s.serial < gameIdCounter && g == GameIdOf(s.serial)
    }

    /** The presence registry: every online handler belongs to this server,
        and the traversal order lists each online name once. */
    ghost predicate Registry()
      reads this`onlineClients, this`order
    {
      Roster(onlineClients, order, this)
    }

    /** The active matches, each registered under its own id. */
    ghost predicate Sessions()
      reads this`activeSessions, this`gameIdCounter
    {
      && gameIdCounter >= 1
      && (forall g :: g in activeSessions ==> SessionOk(g, activeSessions[g]))
    }

    ghost predicate Valid()
      reads this`onlineClients, this`order, this`activeSessions, this`gameIdCounter
    {
      Registry() && Sessions()
    }

    function Handler(name: string): Option<ClientHandler>
      reads this`onlineClients
    {
      Lookup(onlineClients, name)
    }

    /** The online connections in traversal order. */
    function Handlers(): seq<ClientHandler>
      reads this`order, this`onlineClients
    {
      HandlersIn(order, onlineClients)
    }

    function GetUserTotalScore(name: string): int
      reads this`users
    {
      TotalScore(users, name)
    }

    /** authenticateUser: a row with that name and that password exists. */
    function AuthenticateUser(name: string, password: string): bool
      reads this`users
    {
      name in users && users[name].password == password
    }

    function GetLeaderboard(): string
      reads this`users
    {
      leaderboard(users)
    }

    /** The presence line: one row per online user in traversal order. */
    function OnlineLine(): Reply
      reads this`order, this`onlineClients, this`users, onlineClients.Values
    {
      OnlineUsers(PresenceIn(order, onlineClients, users))
    }

    /** The presence line to every online connection. */
    function Announcement(): seq<Delivery>
      reads this`order, this`onlineClients, this`users, onlineClients.Values
    {
      Broadcast(Handlers(), OnlineLine())
    }

    /** registerUser: the INSERT fails on a name that already has a row. */
    method RegisterUser(name: string, password: string) returns (ok: bool)
      modifies this`users
      ensures ok <==> name !in old(users)
      ensures users == if ok then old(users)[name := UserRow(password, 0, 0, 0)] else old(users)
    {
      if name in users {
        ok := false;
      } else {
        users := users[name := UserRow(password, 0, 0, 0)];
        ok := true;
      }
    }

    /** buildOnlineUsersMessage */
    method BuildOnlineUsersMessage() returns (message: Reply, line: string)
      requires Registry()
      ensures message == OnlineLine() && line == Text(message)
    {
      // The loop reads the registry and changes none of it.
      var names, online, rowsDb := order, onlineClients, users;
      assert forall n :: n in names ==> n in online;
      var rows: seq<Presence> := [];
      line := "ONLINE_USERS:";
      var i := 0;
      while i < |names|
        invariant 0 <= i <= |names|
        invariant rows == PresenceIn(names[..i], online, rowsDb)
        invariant line == OnlineUsersLine(rows)
      {
        var name := names[i];
        var handler := online[name];
        var status := if handler.inGame then "BUSY" else "FREE";
        var totalScore := GetUserTotalScore(name);
        var row := name + "," + IntToString(totalScore) + "," + status + ";";
        OnlineRowStep(line, rows, names, i, online, rowsDb);
        rows := rows + [Presence(name, totalScore, handler.inGame)];
        line := line + row;
        i := i + 1;
      }
      assert names[..|names|] == names;
      message := OnlineUsers(rows);
    }

    /** broadcastOnlineUsers: the presence line to every online connection. */
    method BroadcastOnlineUsers()
      requires Registry()
      modifies this`outbox
      ensures outbox == old(outbox) + Announcement()
    {
      var message, _ := BuildOnlineUsersMessage();
      SendToAll(message);
    }

    /** The loop of broadcastOnlineUsers: the message to every online
        connection in traversal order. */
    method SendToAll(message: Reply)
      requires Registry()
      modifies this`outbox
      ensures outbox == old(outbox) + Broadcast(Handlers(), message)
    {
      var i := 0;
      while i < |order|
        invariant 0 <= i <= |order|
        invariant outbox == old(outbox) + Broadcast(HandlersIn(order[..i], onlineClients), message)
      {
        var handler := onlineClients[order[i]];
        BroadcastStep(old(outbox), outbox, order, i, onlineClients, message);
        handler.SendMessage(message);
        i := i + 1;
      }
      assert order[..|order|] == order;
    }

    method SendOnlineUsersToClient(client: ClientHandler)
      requires Registry() && client.server == this
      modifies this`outbox
      ensures outbox == old(outbox) + [Delivery(client, OnlineLine())]
    {
      var message, _ := BuildOnlineUsersMessage();
      client.SendMessage(message);
    }

    /** addClient: the name now maps to the handler, every other entry is as
        before, and everyone gets the new presence line. */
    method AddClient(name: string, handler: ClientHandler)
      requires Valid() && handler.server == this
      modifies this`onlineClients, this`order, this`outbox
      ensures Valid()
      ensures onlineClients == old(onlineClients)[name := handler]
      ensures order == if name in old(order) then old(order) else old(order) + [name]
      ensures outbox == old(outbox) + Announcement()
    {
      RosterAdd(onlineClients, order, this, name, handler);
      onlineClients := onlineClients[name := handler];
      if name !in order {
        order := order + [name];
      }
      assert Registry();
      assert Sessions();
      BroadcastOnlineUsers();
    }

    /** removeClient: only that name leaves, the others keep their order. */
    method RemoveClient(name: string)
      requires Valid()
      modifies this`onlineClients, this`order, this`outbox
      ensures Valid()
      ensures onlineClients == old(onlineClients) - {name}
      ensures order == Without(old(order), name)
      ensures outbox == old(outbox) + Announcement()
    {
      RosterRemove(onlineClients, order, this, name);
      onlineClients := onlineClients - {name};
      order := Without(order, name);
      assert Registry();
      assert Sessions();
      BroadcastOnlineUsers();
    }

    /** sendPrivateMessage: to the recipient when online; otherwise a notice
        to the sender when online. A null sender with an offline recipient
        throws (a concurrent map rejects a null key). */
    method SendPrivateMessage(sender: Option<string>, recipient: string, text: string) returns (thrown: bool)
      requires Registry()
      modifies this`outbox
      ensures thrown <==> recipient !in onlineClients && sender.None?
      ensures recipient in onlineClients ==>
        outbox == old(outbox) + [Delivery(onlineClients[recipient], IncomingMessage(sender, text))]
      ensures recipient !in onlineClients && sender.Some? ==>
        outbox == old(outbox) + To(Handler(sender.value), RecipientOffline(recipient))
      ensures thrown ==> outbox == old(outbox)
    {
      thrown := false;
      if recipient in onlineClients {
        onlineClients[recipient].SendMessage(IncomingMessage(sender, text));
      } else if sender.None? {
        thrown := true;
      } else if sender.value in onlineClients {
        onlineClients[sender.value].SendMessage(RecipientOffline(recipient));
      }
    }

    /** handleGameInvitation: forwarded only to an online invitee who is not
        in a game. */
    method HandleGameInvitation(inviter: Option<string>, invitee: string)
      requires Registry()
      modifies this`outbox
      ensures outbox == old(outbox) +
        (if invitee in onlineClients && !onlineClients[invitee].inGame
         then [Delivery(onlineClients[invitee], GameInvitation(inviter))] else [])
    {
      if invitee in onlineClients && !onlineClients[invitee].inGame {
        onlineClients[invitee].SendMessage(GameInvitation(inviter));
      }
    }

    /** The session registered under gameId, if any. */
    function SessionAt(gameId: string): set<GameSession>
      reads this`activeSessions
    {
      if gameId in activeSessions then {activeSessions[gameId]} else {}
    }

    /** The online connections of the players of the session under gameId. */
    function PlayersAt(gameId: string): set<ClientHandler>
      reads this`activeSessions, this`onlineClients
    {
      if gameId in activeSessions
      then Released(activeSessions[gameId].player1, activeSessions[gameId].player2)
      else {}
    }

    /** startGame: the next counter value names a new session, registered
        whether or not its players are online; only when both are online are
        they marked in that game, sent GAME_STARTED (the session starts its
        clock and timer) and everyone sent the new presence line. */
    method StartGame(player1: string, player2: string, placement: Placement, now: int) returns (session: GameSession)
      requires Valid() && ValidPlacement(placement)
      modifies this`gameIdCounter, this`activeSessions, this`outbox,
               Released(player1, player2)`inGame, Released(player1, player2)`currentGameId
      ensures Valid()
      ensures fresh(session) && session.server == this && session.Valid()
      ensures session.player1 == player1 && session.player2 == player2
      ensures Registered(session, old(gameIdCounter), old(activeSessions))
      ensures onlineClients == old(onlineClients) && order == old(order)
      ensures Started(session, old(outbox), now)
      ensures Handler(player1).None? || Handler(player2).None? ==> unchanged(Released(player1, player2))
    {
      session := Open(player1, player2, placement);
      Begin(session, now);
    }

    /** handleInvitationResponse: nothing when the inviter is offline; a
        rejection sends INVITATION_REJECTED to the inviter only; an
        acceptance starts a game with the inviter as player1. A null invitee
        accepting throws once the id is drawn. */
    method HandleInvitationResponse(invitee: Option<string>, inviter: string, accepted: bool,
                                    placement: Placement, now: int) returns (thrown: bool, ghost session: Option<GameSession>)
      requires Valid() && ValidPlacement(placement)
      modifies this`gameIdCounter, this`activeSessions, this`outbox,
               Invited(inviter, invitee)`inGame, Invited(inviter, invitee)`currentGameId
      ensures Valid()
      ensures thrown <==> inviter in old(onlineClients) && accepted && invitee.None?
      ensures session.Some? <==> inviter in old(onlineClients) && accepted && invitee.Some?
      ensures inviter !in old(onlineClients) ==> unchanged(this)
      ensures session.None? ==> unchanged(Invited(inviter, invitee))
      ensures inviter in old(onlineClients) && !accepted ==>
        && Snapshot() == old(Snapshot())
        && outbox == old(outbox) + [Delivery(onlineClients[inviter], InvitationRejected(invitee))]
      ensures thrown ==>
        && gameIdCounter == old(gameIdCounter) + 1 && activeSessions == old(activeSessions)
        && outbox == old(outbox)
      ensures session.Some? ==>
        && fresh(session.value) && session.value.player1 == inviter && session.value.player2 == invitee.value
        && Registered(session.value, old(gameIdCounter), old(activeSessions))
        && Started(session.value, old(outbox), now)
    {
      thrown, session := false, None;
      if inviter in onlineClients {
        if accepted {
          if invitee.None? {
            gameIdCounter := gameIdCounter + 1;
            thrown := true;
          } else {
            var started := StartGame(inviter, invitee.value, placement, now);
            session := Some(started);
          }
        } else {
          onlineClients[inviter].SendMessage(InvitationRejected(invitee));
        }
      }
    }

    /** The connections an invitation response may put into a game. */
    function Invited(inviter: string, invitee: Option<string>): set<ClientHandler>
      reads this`onlineClients
    {
      if invitee.Some? then Released(inviter, invitee.value) else {}
    }

    /** handleGameAction: a click for the session under gameId; nothing when
        there is none (as after endGame removed it). */
    method HandleGameAction(gameId: string, player: Option<string>, idx: int, now: int) returns (thrown: bool)
      requires Valid()
      modifies SessionAt(gameId)`score1, SessionAt(gameId)`score2, SessionAt(gameId)`clicks1, SessionAt(gameId)`clicks2,
               SessionAt(gameId)`allRiceClickedPositions, SessionAt(gameId)`gameEnded, SessionAt(gameId)`timerArmed,
               this`activeSessions, this`users, this`results, this`outbox,
               PlayersAt(gameId)`inGame, PlayersAt(gameId)`currentGameId
      ensures Valid()
      ensures gameId !in old(activeSessions) ==> !thrown && unchanged(this)
      ensures gameId in old(activeSessions) ==> old(activeSessions)[gameId].ActionDone(player, idx, now, thrown)
    {
      thrown := false;
      if gameId in activeSessions {
        var session := activeSessions[gameId];
        thrown := session.HandlePlayerAction(player, idx, now);
      }
    }

    /** The quit of the session under gameId (the lookup ClientHandler
        relies on); nothing when there is none. */
    method HandlePlayerQuit(gameId: string, player: Option<string>, now: int) returns (thrown: bool)
      requires Valid()
      modifies SessionAt(gameId)`gameEnded, SessionAt(gameId)`timerArmed,
               this`activeSessions, this`users, this`results, this`outbox,
               PlayersAt(gameId)`inGame, PlayersAt(gameId)`currentGameId
      ensures Valid()
      ensures gameId !in old(activeSessions) ==> !thrown && unchanged(this)
      ensures gameId in old(activeSessions) ==> old(activeSessions)[gameId].QuitDone(player, now, thrown)
    {
      thrown := false;
      if gameId in activeSessions {
        var session := activeSessions[gameId];
        thrown := session.HandlePlayerQuit(player, now);
      }
    }

    /** The session is registered under the id made from counter0, an id no
        session in sessions0 had, and the counter moved on by one. */
    ghost predicate Registered(session: GameSession, counter0: int, sessions0: map<string, GameSession>)
      reads this`gameIdCounter, this`activeSessions
    {
      && session.gameId == GameIdOf(counter0) && session.gameId !in sessions0
      && gameIdCounter == counter0 + 1
      && activeSessions == sessions0[session.gameId := session]
    }

    /** The part of startGame that registers the new session under the next
        id. */
    method Open(player1: string, player2: string, placement: Placement) returns (session: GameSession)
      requires Sessions() && ValidPlacement(placement)
      modifies this`gameIdCounter, this`activeSessions
      ensures Sessions()
      ensures fresh(session) && session.server == this && session.Valid()
      ensures session.player1 == player1 && session.player2 == player2
      ensures Registered(session, old(gameIdCounter), old(activeSessions))
      ensures !session.timerArmed && session.gameStartTime == 0
    {
      var gameId := GameIdOf(gameIdCounter);
      assert gameId !in activeSessions by {
        if gameId in activeSessions {
          GameIdOfInjective(activeSessions[gameId].serial, gameIdCounter);
        }
      }
      ghost var serial := gameIdCounter;
      gameIdCounter := gameIdCounter + 1;
      session := new GameSession(gameId, player1, player2, this, placement, serial);
      activeSessions := activeSessions[gameId := session];
    }

    /** The part of startGame after the session is registered. */
    method Begin(session: GameSession, now: int)
      requires Valid() && session.server == this && session.Valid()
      requires !session.timerArmed && session.gameStartTime == 0
      modifies this`outbox, session`gameStartTime, session`timerArmed,
               Released(session.player1, session.player2)`inGame, Released(session.player1, session.player2)`currentGameId
      ensures Valid()
      ensures Started(session, old(outbox), now)
      ensures Handler(session.player1).None? || Handler(session.player2).None? ==>
        unchanged(Released(session.player1, session.player2))
    {
      var client1 := Handler(session.player1);
      var client2 := Handler(session.player2);
      if client1.Some? && client2.Some? {
        Enlist(session.player1, session.player2, session.gameId);
        session.StartGame(now);
        BroadcastOnlineUsers();
      }
    }

    /** The end of startGame once the session is registered: with both
        players online they are in the game, each got GAME_STARTED naming the
        other, the clock and timer run and everyone got the presence line;
        otherwise nothing was sent and no flag moved. */
    ghost predicate Started(session: GameSession, outbox0: seq<Delivery>, now: int)
      reads this, onlineClients.Values, session
    {
      var c1 := Handler(session.player1);
      var c2 := Handler(session.player2);
      if c1.Some? && c2.Some? then
        && c1.value.inGame && c2.value.inGame
        && c1.value.currentGameId == Some(session.gameId) && c2.value.currentGameId == Some(session.gameId)
        && session.timerArmed && session.gameStartTime == now
        && outbox == outbox0
             + [Delivery(c1.value, GameStarted(session.gameId, session.player2, RiceString(session.grainTypes))),
                Delivery(c2.value, GameStarted(session.gameId, session.player1, RiceString(session.grainTypes)))]
             + Announcement()
      else
        && !session.timerArmed && session.gameStartTime == 0
        && outbox == outbox0
    }

    /** The flag updates of startGame: both players are in the game gameId. */
    method Enlist(player1: string, player2: string, gameId: string)
      requires Handler(player1).Some? && Handler(player2).Some?
      modifies Released(player1, player2)`inGame, Released(player1, player2)`currentGameId
      ensures var c1 := Handler(player1).value; var c2 := Handler(player2).value;
        && c1.inGame && c2.inGame && c1.currentGameId == Some(gameId) && c2.currentGameId == Some(gameId)
    {
      var client1 := Handler(player1).value;
      var client2 := Handler(player2).value;
      client1.SetInGame(true);
      client2.SetInGame(true);
      client1.SetCurrentGameId(Some(gameId));
      client2.SetCurrentGameId(Some(gameId));
    }

    /** The online connections of the two players of a match. */
    function Released(player1: string, player2: string): set<ClientHandler>
      reads this`onlineClients
    {
      OptionSet(Handler(player1)) + OptionSet(Handler(player2))
    }

    /** The player, if online, is not in a game any more. */
    ghost predicate Freed(name: string)
      reads this`onlineClients, onlineClients.Values
    {
      name in onlineClients ==> !onlineClients[name].inGame && onlineClients[name].currentGameId == None
    }

    /** updatePlayerStats */
    method UpdatePlayerStats(name: string, won: bool, score: int)
      modifies this`users
      ensures users == Credit(old(users), name, won, score)
    {
      if name in users {
        var row := users[name];
        users := users[name := row.(totalScore := row.totalScore + score,
                                    gamesPlayed := row.gamesPlayed + 1,
                                    gamesWon := row.gamesWon + if won then 1 else 0)];
      }
    }

    /** saveGameResult: the record is stored, then each player is credited
        with a win exactly when the winner string names them. */
    method SaveGameResult(rec: GameRecord)
      modifies this`results, this`users
      ensures results == old(results) + [rec]
      ensures users == SaveStats(old(users), rec)
    {
      results := results + [rec];
      UpdatePlayerStats(rec.player1, rec.winner == rec.player1, rec.score1);
      UpdatePlayerStats(rec.player2, rec.winner == rec.player2, rec.score2);
    }

    /** The registry, the matches, the counter and the tables at one moment. */
    function Snapshot(): Tables
      reads this`onlineClients, this`order, this`activeSessions, this`gameIdCounter, this`users, this`results
    {
      Tables(onlineClients, order, activeSessions, gameIdCounter, users, results)
    }

    /** What endGame leaves behind, starting from `before`: the session is
        gone, the result is stored and credited, both players are free
        again; the registry and the counter are as they were. */
    ghost predicate EndedGame(before: Tables, rec: GameRecord)
      reads this`onlineClients, this`order, this`activeSessions, this`gameIdCounter, this`users, this`results,
            onlineClients.Values
    {
      Snapshot() == Close(before, rec) && Freed(rec.player1) && Freed(rec.player2)
    }

    /** activeSessions.remove(gameId) */
    method RemoveSession(gameId: string)
      requires Sessions()
      modifies this`activeSessions
      ensures Sessions()
      ensures activeSessions == old(activeSessions) - {gameId}
    {
      activeSessions := activeSessions - {gameId};
    }

    /** The flag updates of endGame: each player who is online leaves the game. */
    method ReleasePlayers(player1: string, player2: string)
      modifies Released(player1, player2)`inGame, Released(player1, player2)`currentGameId
      ensures Freed(player1) && Freed(player2)
    {
      var client1 := Handler(player1);
      var client2 := Handler(player2);
      if client1.Some? {
        client1.value.SetInGame(false);
        client1.value.SetCurrentGameId(None);
      }
      if client2.Some? {
        client2.value.SetInGame(false);
        client2.value.SetCurrentGameId(None);
      }
    }

    /** The bookkeeping of endGame that precedes the presence broadcast. */
    method Retire(rec: GameRecord)
      requires Valid()
      modifies this`activeSessions, this`users, this`results,
               Released(rec.player1, rec.player2)`inGame, Released(rec.player1, rec.player2)`currentGameId
      ensures Valid()
      ensures activeSessions == old(activeSessions) - {rec.gameId}
      ensures results == old(results) + [rec]
      ensures users == SaveStats(old(users), rec)
      ensures Freed(rec.player1) && Freed(rec.player2)
    {
      RemoveSession(rec.gameId);
      ReleasePlayers(rec.player1, rec.player2);
      SaveGameResult(rec);
    }

    /** endGame */
    method EndGame(gameId: string, winner: string, player1: string, player2: string,
                   score1: int, score2: int, duration: int)
      requires Valid()
      modifies this`activeSessions, this`users, this`results, this`outbox,
               Released(player1, player2)`inGame, Released(player1, player2)`currentGameId
      ensures Valid()
      ensures EndedGame(old(Snapshot()), GameRecord(gameId, player1, player2, winner, score1, score2, duration))
      ensures outbox == old(outbox) + Announcement()
    {
      Retire(GameRecord(gameId, player1, player2, winner, score1, score2, duration));
      BroadcastOnlineUsers();
    }
  }

  // ===========================================================================
  // GameSession
  // ===========================================================================

  class GameSession {
    const gameId: string
    const player1: string
    const player2: string
    const server: GameServer
    /** The counter value this session's id was made from. */
    ghost const serial: int
    /** The board: grainTypes and powerupTypes, filled by the constructor and
        only read afterwards. */
    const grainTypes: seq<GrainType>
    const powerupTypes: seq<PowerupType>
    /** The entries of playerScores for player1 and for player2 (the map has a
        single entry when the two names are equal: player2's). */
    var score1: int
    var score2: int
    /** The entries of playerClicks for player1 and for player2. */
    var clicks1: set<int>
    var clicks2: set<int>
    var allRiceClickedPositions: set<int>
    var totalRiceCount: int
    var gameEnded: bool
    /** Whether the game timer is scheduled and not cancelled. */
    var timerArmed: bool
    var gameStartTime: int

    ghost predicate Valid()
    {
      |grainTypes| == TotalGrains && |powerupTypes| == TotalGrains
    }

    /** playerScores */
    function PlayerScores(): map<string, int>
      reads this`score1, this`score2
    {
      map[player1 := score1, player2 := score2]
    }

    /** playerClicks */
    function PlayerClicks(): map<string, set<int>>
      reads this`clicks1, this`clicks2
    {
      map[player1 := clicks1, player2 := clicks2]
    }

    function State(): Match
      reads this`score1, this`score2, this`clicks1, this`clicks2, this`allRiceClickedPositions,
            this`totalRiceCount, this`gameEnded
    {
      Match(player1, player2, grainTypes, powerupTypes, PlayerScores(), PlayerClicks(),
            allRiceClickedPositions, totalRiceCount, gameEnded)
    }

    /** The elapsed seconds endGame reports: a long division by 1000 cast to int. */
    function Elapsed(now: int): int
      reads this`gameStartTime
    {
      ToInt32(JavaDiv(now - gameStartTime, 1000))
    }

    function Record(winner: string, duration: int): GameRecord
      reads this`score1, this`score2
    {
      GameRecord(gameId, player1, player2, winner, PlayerScores()[player1], PlayerScores()[player2], duration)
    }

    /** The lines a scoring click writes: the result to the clicker, then the
        cell and the clicker's new score to the opponent, each when online. */
    function ClickLines(p: string, opponent: string, idx: int, tag: string, score: int): seq<Delivery>
      reads server`onlineClients
    {
      To(server.Handler(p), GrainResult(idx, tag, score))
        + To(server.Handler(opponent), OpponentGrainClick(idx, tag))
        + To(server.Handler(opponent), OpponentScore(p, score))
    }

    /** The lines of a buff: the new score to the user, and to the opponent as
        the user's score. */
    function BuffLines(p: string, opponent: string, score: int): seq<Delivery>
      reads server`onlineClients
    {
      To(server.Handler(p), BuffActivated(score)) + To(server.Handler(opponent), OpponentScore(p, score))
    }

    /** The lines of a debuff: success and the target's new score to the user,
        and the new score to the target. */
    function DebuffLines(p: string, target: string, score: int): seq<Delivery>
      reads server`onlineClients
    {
      To(server.Handler(p), DebuffSuccess) + To(server.Handler(p), OpponentScore(target, score))
        + To(server.Handler(target), DebuffActivated(score))
    }

    /** GAME_ENDED with the winner and both scores, to each player online. */
    function EndLines(winner: string): seq<Delivery>
      reads this`score1, this`score2, server`onlineClients
    {
      var line := GameEnded(winner, PlayerScores()[player1], PlayerScores()[player2]);
      To(server.Handler(player1), line) + To(server.Handler(player2), line)
    }

    /** QUIT_LOSS to the quitter and QUIT_WIN to the winner, when online. */
    function QuitLines(quitter: string, winner: string): seq<Delivery>
      reads this`score1, this`score2, server`onlineClients
    {
      var s1 := PlayerScores()[player1];
      var s2 := PlayerScores()[player2];
      To(server.Handler(quitter), GameEnded("QUIT_LOSS", s1, s2))
        + To(server.Handler(winner), GameEnded("QUIT_WIN", s1, s2))
    }

    /** Only `lines` were written: the server's registry, matches and tables
        and the players' connections are as they were. */
    twostate predicate Spoke(new lines: seq<Delivery>)
      reads server, server.onlineClients.Values
    {
      && server.Snapshot() == old(server.Snapshot())
      && unchanged(server.Released(player1, player2))
      && server.outbox == old(server.outbox) + lines
    }

    /** Nothing at all happened. */
    twostate predicate Unmoved()
      reads this, server, server.onlineClients.Values
    {
      unchanged(this, server) && unchanged(server.Released(player1, player2))
    }

    /** The match ended with the timer cancelled and the server ended it with
        this record. */
    twostate predicate Concluded(winner: string, duration: int)
      reads this, server, server.onlineClients.Values
    {
      && gameEnded && !timerArmed
      && server.EndedGame(old(server.Snapshot()), Record(winner, duration))
    }

    /** What a step of the match leaves behind besides its new snapshot: with
        no ending only `lines` were written and the timer is as it was; with
        an ending the match also concluded with the given duration, and
        GAME_ENDED and the presence line followed `lines`. */
    twostate predicate Reported(new lines: seq<Delivery>, ending: Ending, duration: int)
      reads this, server, server.onlineClients.Values
    {
      match ending
      case Continues => timerArmed == old(timerArmed) && Spoke(lines)
      case EndsWith(w) =>
        && Concluded(w, duration)
        && server.outbox == old(server.outbox) + lines + EndLines(w) + server.Announcement()
    }

    /** What handlePlayerAction did, as Click says: nothing when ignored or
        when it threw, otherwise the new snapshot and the lines and ending
        of the click (the elapsed time at the target score, 0 when all rice
        is collected). */
    twostate predicate ActionDone(player: Option<string>, idx: int, now: int, thrown: bool)
      requires Valid()
      reads this, server, server.onlineClients.Values
    {
      match Click(old(State()), player, idx)
      case Ignored => !thrown && Unmoved()
      case Crashed => thrown && Unmoved()
      case Scored(next, kind, powerup, score, ending) =>
        && !thrown && player.Some? && State() == next
        && Reported(ClickLines(player.value, OpponentOf(next, player.value), idx, GrainTag(kind, powerup), score),
                    ending, if score >= TargetRice then Elapsed(now) else 0)
    }

    /** What handlePlayerQuit did, as Quit says: nothing once ended; with a
        null quitter the match is ended and the timer cancelled but nothing
        else happened; otherwise the match concluded with the other player
        as winner after QUIT_LOSS and QUIT_WIN. */
    twostate predicate QuitDone(quitter: Option<string>, now: int, thrown: bool)
      reads this, server, server.onlineClients.Values
    {
      match Quit(old(State()), quitter)
      case QuitIgnored => !thrown && Unmoved()
      case QuitCrashed(next) => thrown && State() == next && !timerArmed && Spoke([])
      case QuitEnded(next, winner) =>
        && !thrown && quitter.Some? && State() == next && Concluded(winner, Elapsed(now))
        && server.outbox == old(server.outbox) + QuitLines(quitter.value, winner) + server.Announcement()
    }

    /** What handlePlayerQuit leaves behind that later updates of the
        quitter's own connection keep: the match state as Quit says, and
        after an ending the timer cancelled, the tables as endGame leaves
        them and QUIT_LOSS and QUIT_WIN at the head of `written`, the lines
        the quit wrote. */
    twostate predicate QuitOutcome(quitter: Option<string>, now: int, thrown: bool, new written: seq<Delivery>)
      reads this, server`onlineClients, server`order, server`activeSessions, server`gameIdCounter,
            server`users, server`results
    {
      match Quit(old(State()), quitter)
      case QuitIgnored => !thrown && written == [] && unchanged(this) && server.Snapshot() == old(server.Snapshot())
      case QuitCrashed(next) =>
        thrown && written == [] && State() == next && !timerArmed && server.Snapshot() == old(server.Snapshot())
      case QuitEnded(next, winner) =>
        && !thrown && quitter.Some? && State() == next && !timerArmed
        && server.Snapshot() == Close(old(server.Snapshot()), Record(winner, Elapsed(now)))
        && QuitLines(quitter.value, winner) <= written
    }

    /** A finished quit, as QuitDone states it, extends the outbox, and
        what it wrote has QuitOutcome's shape. */
    twostate lemma QuitKept(call: (Option<string>, int, bool))
      ensures QuitDone(call.0, call.1, call.2) ==>
        && |old(server.outbox)| <= |server.outbox|
        && server.outbox == old(server.outbox) + server.outbox[|old(server.outbox)|..]
        && (call.2 ==> unchanged(server.Released(player1, player2)) && server.outbox == old(server.outbox))
        && QuitOutcome(call.0, call.1, call.2, server.outbox[|old(server.outbox)|..])
        && (call.2 <==> !old(gameEnded) && call.0.None?) && gameEnded
    {
      var (quitter, now, thrown) := call;
      if QuitDone(quitter, now, thrown) {
        match Quit(old(State()), quitter)
        case QuitIgnored =>
        case QuitCrashed(_) =>
        case QuitEnded(_, winner) =>
          assert server.outbox[|old(server.outbox)|..] == QuitLines(quitter.value, winner) + server.Announcement();
      }
    }

    /** playerScores.put */
    method PutScore(p: string, v: int)
      requires p == player1 || p == player2
      modifies this`score1, this`score2
      ensures PlayerScores() == old(PlayerScores())[p := v]
    {
      if p == player1 {
        score1 := v;
      }
      if p == player2 {
        score2 := v;
      }
    }

    /** playerClicks.get(p).add(idx) */
    method AddClick(p: string, idx: int)
      requires p == player1 || p == player2
      modifies this`clicks1, this`clicks2
      ensures PlayerClicks() == old(PlayerClicks())[p := old(PlayerClicks())[p] + {idx}]
    {
      if p == player1 {
        clicks1 := clicks1 + {idx};
      }
      if p == player2 {
        clicks2 := clicks2 + {idx};
      }
    }

    /** The constructor with initializeItems: both players at 0 with no
        clicks, and the board the draws describe. */
    constructor(gameId: string, player1: string, player2: string, server: GameServer,
                placement: Placement, ghost serial: int)
      requires ValidPlacement(placement)
      ensures Valid()
      ensures this.gameId == gameId && this.server == server && this.serial == serial
      ensures State() == NewMatch(player1, player2, placement)
      ensures !timerArmed && gameStartTime == 0
    {
      this.gameId := gameId;
      this.player1 := player1;
      this.player2 := player2;
      this.server := server;
      this.serial := serial;
      score1, score2 := 0, 0;
      clicks1, clicks2 := {}, {};
      gameEnded := false;
      allRiceClickedPositions := {};
      timerArmed := false;
      gameStartTime := 0;
      var grains := new GrainType[TotalGrains](_ => Chaff);
      var powerups := new PowerupType[TotalGrains](_ => NoPowerup);
      var count := 0;
      var i := 0;
      while i < NumRice
        invariant 0 <= i <= NumRice && count == i
        invariant forall c :: 0 <= c < TotalGrains ==> grains[c] == if c in placement.rice[..i] then Rice else Chaff
        invariant forall c :: 0 <= c < TotalGrains ==> powerups[c] == NoPowerup
      {
        grains[placement.rice[i]] := Rice;
        count := count + 1;
        assert placement.rice[..i + 1] == placement.rice[..i] + [placement.rice[i]];
        i := i + 1;
      }
      assert placement.rice[..NumRice] == placement.rice;
      assert grains[..] == GrainsOf(placement);
      i := 0;
      while i < NumBuffs
        invariant 0 <= i <= NumBuffs
        invariant forall c :: 0 <= c < TotalGrains ==> powerups[c] == if c in placement.buffs[..i] then ScoreBuff else NoPowerup
        invariant grains[..] == GrainsOf(placement)
      {
        powerups[placement.buffs[i]] := ScoreBuff;
        assert placement.buffs[..i + 1] == placement.buffs[..i] + [placement.buffs[i]];
        i := i + 1;
      }
      assert placement.buffs[..NumBuffs] == placement.buffs;
      i := 0;
      while i < NumDebuffs
        invariant 0 <= i <= NumDebuffs
        invariant forall c :: 0 <= c < TotalGrains ==>
          powerups[c] == (if c in placement.debuffs[..i] then ScoreDebuff else if c in placement.buffs then ScoreBuff else NoPowerup)
        invariant grains[..] == GrainsOf(placement)
      {
        powerups[placement.debuffs[i]] := ScoreDebuff;
        assert placement.debuffs[..i + 1] == placement.debuffs[..i] + [placement.debuffs[i]];
        i := i + 1;
      }
      assert placement.debuffs[..NumDebuffs] == placement.debuffs;
      assert powerups[..] == PowerupsOf(placement);
      totalRiceCount := count;
      grainTypes := grains[..];
      powerupTypes := powerups[..];
    }

    /** The StringBuilder loop of startGame: the rice indices in ascending
        order, joined by ':' without a trailing one. */
    method RicePositions() returns (positions: string)
      requires Valid()
      ensures positions == RiceString(grainTypes)
    {
      var builder := "";
      var i := 0;
      while i < TotalGrains
        invariant 0 <= i <= TotalGrains
        invariant builder == RiceBuilt(grainTypes, i)
      {
        assert grainTypes[..i + 1] == grainTypes[..i] + [grainTypes[i]];
        if grainTypes[i] == Rice {
          builder := builder + IntToString(i) + ":";
        }
        i := i + 1;
      }
      RiceBuiltIsTerminated(grainTypes, TotalGrains);
      RiceBuilderDone(grainTypes, builder);
      if |builder| > 0 {
        positions := builder[..|builder| - 1];
      } else {
        positions := "";
      }
    }

    /** startGame: the clock starts; only when both players are online, each
        gets GAME_STARTED naming the other as opponent, and the timer is
        armed. */
    method StartGame(now: int)
      requires Valid() && server.Registry()
      modifies this`gameStartTime, this`timerArmed, server`outbox
      ensures gameStartTime == now
      ensures var c1 := server.Handler(player1); var c2 := server.Handler(player2);
        if c1.Some? && c2.Some? then
          && timerArmed
          && server.outbox == old(server.outbox)
               + [Delivery(c1.value, GameStarted(gameId, player2, RiceString(grainTypes))),
                  Delivery(c2.value, GameStarted(gameId, player1, RiceString(grainTypes)))]
        else timerArmed == old(timerArmed) && server.outbox == old(server.outbox)
    {
      gameStartTime := now;
      var client1 := server.Handler(player1);
      var client2 := server.Handler(player2);
      if client1.Some? && client2.Some? {
        var ricePositions := RicePositions();
        client1.value.SendMessage(GameStarted(gameId, player2, ricePositions));
        client2.value.SendMessage(GameStarted(gameId, player1, ricePositions));
        timerArmed := true;
      }
    }

    /** The GAME_ENDED lines of endGame. */
    method AnnounceEnd(winner: string)
      requires server.Registry()
      modifies server`outbox
      ensures server.outbox == old(server.outbox) + EndLines(winner)
    {
      var client1 := server.Handler(player1);
      var client2 := server.Handler(player2);
      var gameEndMessage := GameEnded(winner, PlayerScores()[player1], PlayerScores()[player2]);
      if client1.Some? {
        client1.value.SendMessage(gameEndMessage);
      }
      if client2.Some? {
        client2.value.SendMessage(gameEndMessage);
      }
    }

    /** endGame: ignored once the match ended; otherwise the match is marked
        ended, the timer cancelled, GAME_ENDED sent to both players and the
        server ends the match. */
    method EndGame(winner: string, now: int)
      requires server.Valid()
      modifies this`gameEnded, this`timerArmed, server`activeSessions, server`users, server`results, server`outbox,
               server.Released(player1, player2)`inGame, server.Released(player1, player2)`currentGameId
      ensures server.Valid()
      ensures old(gameEnded) ==> Unmoved()
      ensures !old(gameEnded) ==> Concluded(winner, Elapsed(now))
      ensures !old(gameEnded) ==> server.outbox == old(server.outbox) + EndLines(winner) + server.Announcement()
    {
      if !gameEnded {
        Finish(winner, Elapsed(now));
      }
    }

    /** The body of endGame for a match still running. */
    method Finish(winner: string, duration: int)
      requires server.Valid() && !gameEnded
      modifies this`gameEnded, this`timerArmed, server`activeSessions, server`users, server`results, server`outbox,
               server.Released(player1, player2)`inGame, server.Released(player1, player2)`currentGameId
      ensures server.Valid()
      ensures Concluded(winner, duration)
      ensures server.outbox == old(server.outbox) + EndLines(winner) + server.Announcement()
    {
      gameEnded := true;
      timerArmed := false;
      var score1 := PlayerScores()[player1];
      var score2 := PlayerScores()[player2];
      ghost var before := server.Snapshot();
      AnnounceEnd(winner);
      assert server.Snapshot() == before;
      ghost var record := GameRecord(gameId, player1, player2, winner, score1, score2, duration);
      assert Record(winner, duration) == record;
      server.EndGame(gameId, winner, player1, player2, score1, score2, duration);
      assert server.EndedGame(before, record);
    }

    /** The bookkeeping of a click that is not ignored: the score moves, a
        rice or powerup cell is marked for the clicker, a rice cell as
        collected. */
    method Mark(p: string, idx: int) returns (score: int)
      requires Valid() && (p == player1 || p == player2) && 0 <= idx < TotalGrains
      modifies this`score1, this`score2, this`clicks1, this`clicks2, this`allRiceClickedPositions
      ensures State() == Collect(old(State()), p, idx)
      ensures score == PlayerScores()[p]
    {
      var current := PlayerScores()[p];
      if grainTypes[idx] == Rice {
        AddClick(p, idx);
        allRiceClickedPositions := allRiceClickedPositions + {idx};
        score := current + 1;
      } else {
        if powerupTypes[idx] != NoPowerup {
          AddClick(p, idx);
        }
        score := current - 1;
        if score < 0 {
          score := 0;
        }
      }
      PutScore(p, score);
    }

    /** The three lines of a scoring click. */
    method ReportClick(p: string, opponent: string, idx: int, tag: string, score: int)
      requires server.Registry()
      modifies server`outbox
      ensures server.outbox == old(server.outbox) + ClickLines(p, opponent, idx, tag, score)
    {
      var client := server.Handler(p);
      var opponentClient := server.Handler(opponent);
      if client.Some? {
        client.value.SendMessage(GrainResult(idx, tag, score));
      }
      if opponentClient.Some? {
        opponentClient.value.SendMessage(OpponentGrainClick(idx, tag));
        opponentClient.value.SendMessage(OpponentScore(p, score));
      }
    }

    /** handlePlayerAction: ignored once the match ended, off the board, or on
        a one-shot cell the player already clicked; throws for a null or
        unknown player before touching anything; otherwise the click is
        scored and reported, and ends the match at the target score
        (elapsed time) or when all rice is collected (duration 0). */
    method HandlePlayerAction(player: Option<string>, idx: int, now: int) returns (thrown: bool)
      requires Valid() && server.Valid()
      modifies this`score1, this`score2, this`clicks1, this`clicks2, this`allRiceClickedPositions,
               this`gameEnded, this`timerArmed, server`activeSessions, server`users, server`results, server`outbox,
               server.Released(player1, player2)`inGame, server.Released(player1, player2)`currentGameId
      ensures server.Valid()
      ensures ActionDone(player, idx, now, thrown)
    {
      thrown := false;
      if gameEnded || idx < 0 || idx >= TotalGrains {
        return;
      }
      if player.None? || player.value !in PlayerScores() {
        thrown := true;
        return;
      }
      var p := player.value;
      if (grainTypes[idx] == Rice || powerupTypes[idx] != NoPowerup) && idx in PlayerClicks()[p] {
        return;
      }
      ClickScores(State(), p, idx);
      Play(p, idx, now);
    }

    /** A click that counts, from the score update to the end of the match. */
    method Play(p: string, idx: int, now: int)
      requires Valid() && server.Valid() && !gameEnded
      requires (p == player1 || p == player2) && 0 <= idx < TotalGrains
      modifies this`score1, this`score2, this`clicks1, this`clicks2, this`allRiceClickedPositions,
               this`gameEnded, this`timerArmed, server`activeSessions, server`users, server`results, server`outbox,
               server.Released(player1, player2)`inGame, server.Released(player1, player2)`currentGameId
      ensures server.Valid()
      ensures var after := Collect(old(State()), p, idx);
        && State() == Settle(after, Outcome(after, p))
        && Reported(ClickLines(p, OpponentOf(after, p), idx, GrainTag(after.grains[idx], after.powerups[idx]), after.scores[p]),
                    Outcome(after, p), if after.scores[p] >= TargetRice then Elapsed(now) else 0)
    {
      var opponent := if p == player1 then player2 else player1;
      var score := Mark(p, idx);
      Report(p, opponent, idx, GrainTag(grainTypes[idx], powerupTypes[idx]), score, now);
    }

    /** The lines of a scoring click, then the end-of-match checks. */
    method Report(p: string, opponent: string, idx: int, tag: string, score: int, now: int)
      requires Valid() && server.Valid() && !gameEnded && (p == player1 || p == player2)
      modifies this`gameEnded, this`timerArmed, server`activeSessions, server`users, server`results, server`outbox,
               server.Released(player1, player2)`inGame, server.Released(player1, player2)`currentGameId
      ensures server.Valid()
      ensures gameEnded == Outcome(old(State()), p).EndsWith?
      ensures Reported(ClickLines(p, opponent, idx, tag, score), Outcome(old(State()), p),
                       if old(State()).scores[p] >= TargetRice then Elapsed(now) else 0)
    {
      ReportClick(p, opponent, idx, tag, score);
      CheckEnd(p, now);
    }

    /** The end-of-match checks of handlePlayerAction, after the click was
        reported. */
    method CheckEnd(p: string, now: int)
      requires Valid() && server.Valid() && !gameEnded && (p == player1 || p == player2)
      modifies this`gameEnded, this`timerArmed, server`activeSessions, server`users, server`results, server`outbox,
               server.Released(player1, player2)`inGame, server.Released(player1, player2)`currentGameId
      ensures server.Valid()
      ensures match Outcome(old(State()), p)
        case Continues => Unmoved()
        case EndsWith(w) =>
          && Concluded(w, old(if PlayerScores()[p] >= TargetRice then Elapsed(now) else 0))
          && server.outbox == old(server.outbox) + EndLines(w) + server.Announcement()
    {
      ghost var ending := Outcome(State(), p);
      if PlayerScores()[p] >= TargetRice {
        assert ending == EndsWith(p);
        Finish(p, Elapsed(now));
      } else if |allRiceClickedPositions| >= totalRiceCount {
        assert ending == EndsWith(Winner(State()));
        EndGameAllRiceCollected();
      } else {
        assert ending == Continues;
      }
    }

    /** handleUseBuffDebuff: ignored once the match ended; throws on a null
        user, and on a buff by someone who is not a player, before touching
        anything; a buff adds three to the user's score and ends the match at
        the target score; a debuff takes two from the opponent's score, not
        below zero, and never ends the match. */
    method HandleUseBuffDebuff(player: Option<string>, isBuff: bool, now: int) returns (thrown: bool)
      requires Valid() && server.Valid()
      modifies this`score1, this`score2, this`gameEnded, this`timerArmed,
               server`activeSessions, server`users, server`results, server`outbox,
               server.Released(player1, player2)`inGame, server.Released(player1, player2)`currentGameId
      ensures server.Valid()
      ensures match UseItem(old(State()), player, isBuff)
        case ItemIgnored => !thrown && Unmoved()
        case ItemCrashed => thrown && Unmoved()
        case Buffed(next, score, ending) =>
          && !thrown && player.Some? && State() == next
          && Reported(BuffLines(player.value, OpponentOf(old(State()), player.value), score), ending, Elapsed(now))
        case Debuffed(next, target, score) =>
          && !thrown && player.Some? && State() == next && timerArmed == old(timerArmed)
          && Spoke(DebuffLines(player.value, target, score))
    {
      thrown := false;
      if gameEnded {
        return;
      }
      if player.None? {
        thrown := true;
        return;
      }
      var p := player.value;
      var opponent := OpponentOf(State(), p);
      if isBuff {
        if p !in PlayerScores() {
          thrown := true;
          return;
        }
        Buff(p, opponent, now);
      } else {
        Debuff(p, opponent);
      }
    }

    /** The buff: three more points for the user, reported, and the end of
        the match at the target score. */
    method Buff(p: string, opponent: string, now: int)
      requires Valid() && server.Valid() && !gameEnded && (p == player1 || p == player2)
      modifies this`score1, this`score2, this`gameEnded, this`timerArmed,
               server`activeSessions, server`users, server`results, server`outbox,
               server.Released(player1, player2)`inGame, server.Released(player1, player2)`currentGameId
      ensures server.Valid()
      ensures var st := BuffStep(old(State()), p);
        State() == st.next && Reported(BuffLines(p, opponent, st.score), st.ending, Elapsed(now))
    {
      ghost var st := BuffStep(State(), p);
      var newScore := Bump(p);
      assert st.score == newScore && st.ending == Reach(p, newScore) && st.next == Settle(State(), Reach(p, newScore));
      Boost(p, opponent, newScore, now);
    }

    /** The score update of a buff. */
    method Bump(p: string) returns (score: int)
      requires p == player1 || p == player2
      modifies this`score1, this`score2
      ensures score == old(State()).scores[p] + BuffBonus
      ensures State() == Rescore(old(State()), p, score)
    {
      score := PlayerScores()[p] + BuffBonus;
      PutScore(p, score);
    }

    /** The lines of a buff, then the end of the match at the target score. */
    method Boost(p: string, opponent: string, score: int, now: int)
      requires server.Valid() && !gameEnded
      modifies this`gameEnded, this`timerArmed, server`activeSessions, server`users, server`results, server`outbox,
               server.Released(player1, player2)`inGame, server.Released(player1, player2)`currentGameId
      ensures server.Valid()
      ensures gameEnded == Reach(p, score).EndsWith?
      ensures Reported(BuffLines(p, opponent, score), Reach(p, score), Elapsed(now))
    {
      ReportBuff(p, opponent, score);
      if score >= TargetRice {
        Finish(p, Elapsed(now));
      }
    }

    /** The lines of a buff. */
    method ReportBuff(p: string, opponent: string, score: int)
      requires server.Registry()
      modifies server`outbox
      ensures server.outbox == old(server.outbox) + BuffLines(p, opponent, score)
    {
      var client := server.Handler(p);
      var opponentClient := server.Handler(opponent);
      if client.Some? {
        client.value.SendMessage(BuffActivated(score));
      }
      if opponentClient.Some? {
        opponentClient.value.SendMessage(OpponentScore(p, score));
      }
    }

    /** The debuff branch of handleUseBuffDebuff. */
    method Debuff(p: string, opponent: string)
      requires Valid() && server.Registry() && !gameEnded && opponent == OpponentOf(State(), p)
      modifies this`score1, this`score2, server`outbox
      ensures var st := DebuffStep(old(State()), p);
        State() == st.next && server.outbox == old(server.outbox) + DebuffLines(p, st.target, st.score)
    {
      var opponentScore := PlayerScores()[opponent] - DebuffPenalty;
      if opponentScore < 0 {
        opponentScore := 0;
      }
      PutScore(opponent, opponentScore);
      ReportDebuff(p, opponent, opponentScore);
    }

    /** The lines of a debuff. */
    method ReportDebuff(p: string, target: string, score: int)
      requires server.Registry()
      modifies server`outbox
      ensures server.outbox == old(server.outbox) + DebuffLines(p, target, score)
    {
      var client := server.Handler(p);
      var opponentClient := server.Handler(target);
      if client.Some? {
        client.value.SendMessage(DebuffSuccess);
        client.value.SendMessage(OpponentScore(target, score));
      }
      if opponentClient.Some? {
        opponentClient.value.SendMessage(DebuffActivated(score));
      }
    }

    /** handlePlayerQuit: ignored once the match ended; otherwise the match
        is marked ended and the timer cancelled, a null quitter then throws,
        and anyone else loses: QUIT_LOSS to the quitter, QUIT_WIN to the
        other player, and the server ends the match with that player as
        winner and the elapsed time. */
    method HandlePlayerQuit(quitter: Option<string>, now: int) returns (thrown: bool)
      requires server.Valid()
      modifies this`gameEnded, this`timerArmed, server`activeSessions, server`users, server`results, server`outbox,
               server.Released(player1, player2)`inGame, server.Released(player1, player2)`currentGameId
      ensures server.Valid()
      ensures QuitDone(quitter, now, thrown)
    {
      thrown := false;
      ghost var step := Quit(State(), quitter);
      if gameEnded {
        assert step == QuitIgnored;
        return;
      }
      gameEnded := true;
      timerArmed := false;
      if quitter.None? {
        assert step == QuitCrashed(State());
        thrown := true;
        return;
      }
      assert step == QuitEnded(State(), if quitter.value == player1 then player2 else player1);
      Leave(quitter.value, Elapsed(now));
    }

    /** The rest of handlePlayerQuit once the quitter is known. */
    method Leave(quitter: string, duration: int)
      requires server.Valid()
      modifies server`activeSessions, server`users, server`results, server`outbox,
               server.Released(player1, player2)`inGame, server.Released(player1, player2)`currentGameId
      ensures server.Valid()
      ensures var winner := if quitter == player1 then player2 else player1;
        && server.EndedGame(old(server.Snapshot()), Record(winner, duration))
        && server.outbox == old(server.outbox) + QuitLines(quitter, winner) + server.Announcement()
    {
      var winner := if quitter == player1 then player2 else player1;
      AnnounceQuit(quitter, winner);
      server.EndGame(gameId, winner, player1, player2, PlayerScores()[player1], PlayerScores()[player2], duration);
    }

    /** The QUIT_LOSS and QUIT_WIN lines of handlePlayerQuit. */
    method AnnounceQuit(quitter: string, winner: string)
      requires server.Registry()
      modifies server`outbox
      ensures server.outbox == old(server.outbox) + QuitLines(quitter, winner)
    {
      var score1 := PlayerScores()[player1];
      var score2 := PlayerScores()[player2];
      var quittingClient := server.Handler(quitter);
      var winnerClient := server.Handler(winner);
      if quittingClient.Some? {
        quittingClient.value.SendMessage(GameEnded("QUIT_LOSS", score1, score2));
      }
      if winnerClient.Some? {
        winnerClient.value.SendMessage(GameEnded("QUIT_WIN", score1, score2));
      }
    }

    /** endGameAllRiceCollected: like endGame with the higher scorer (or DRAW)
        as winner, and a duration of 0. */
    method EndGameAllRiceCollected()
      requires Valid() && server.Valid()
      modifies this`gameEnded, this`timerArmed, server`activeSessions, server`users, server`results, server`outbox,
               server.Released(player1, player2)`inGame, server.Released(player1, player2)`currentGameId
      ensures server.Valid()
      ensures old(gameEnded) ==> Unmoved()
      ensures !old(gameEnded) ==> Concluded(Winner(old(State())), 0)
      ensures !old(gameEnded) ==> server.outbox == old(server.outbox) + EndLines(Winner(old(State()))) + server.Announcement()
    {
      if !gameEnded {
        var winner := Leader();
        Finish(winner, 0);
      }
    }

    /** The winner endGameByTimeout and endGameAllRiceCollected pick. */
    method Leader() returns (winner: string)
      requires Valid()
      ensures winner == Winner(State())
    {
      var s1 := PlayerScores()[player1];
      var s2 := PlayerScores()[player2];
      if s1 > s2 {
        winner := player1;
      } else if s2 > s1 {
        winner := player2;
      } else {
        winner := Draw;
      }
    }

    /** The timer task and endGameByTimeout: once the match ended nothing
        happens; otherwise endGame with the higher scorer, or DRAW. */
    method EndGameByTimeout(now: int)
      requires Valid() && server.Valid()
      modifies this`gameEnded, this`timerArmed, server`activeSessions, server`users, server`results, server`outbox,
               server.Released(player1, player2)`inGame, server.Released(player1, player2)`currentGameId
      ensures server.Valid()
      ensures match Timeout(old(State()))
        case Continues => Unmoved()
        case EndsWith(w) => Concluded(w, Elapsed(now)) && server.outbox == old(server.outbox) + EndLines(w) + server.Announcement()
    {
      if !gameEnded {
        var winner := Leader();
        Finish(winner, Elapsed(now));
      }
    }
  }
}
