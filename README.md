# Rice picking game server and client: a Dafny model

This project models the core of a two-player, networked "rice picking" game
written in Java. Players log in to a socket server, see who is online, invite
one another, and then race on a board of 100 grains: rice scores a point, chaff
costs one, and some cells carry a buff (+3 to the user) or a debuff (−2 to the
opponent) that is collected into an inventory. The first player to reach 50
wins. Otherwise, when all rice is collected or the 100-second timer fires, the
higher scorer wins.

The model follows the Java classes one by one:

- `wire.dfy` (module `Wire`) models the Java library calls the protocol
  relies on, for the ASCII text the protocol carries:
  - `String.split`, with and without a limit, including the dropping of
    trailing empty strings;
  - `String.join` and `String.trim`;
  - `Integer.parseInt` and `Integer.toString`, with their round-trip lemmas.
- `rules.dfy` (module `MatchRules`) holds the rules of one match as pure
  functions on a snapshot of a `GameSession`:
  - the board drawn by `initializeItems`;
  - the click rule of `handlePlayerAction`, and the buff and the debuff;
  - the four ways a match ends: the target score, all rice collected, a
    timeout, or a quit;
  - the invariant that every step keeps.
- `protocol.dfy` (module `Protocol`) covers the line protocol:
  - how `ClientHandler` frames and dispatches a line;
  - the lines the server writes, as a `Reply` datatype with its exact
    characters;
  - the `ONLINE_USERS` presence line;
  - the per-player statistics written by `saveGameResult` and
    `updatePlayerStats`.
- `server.dfy` (module `GameSocket`) has the three server classes as Dafny
  classes with their own fields:
  - `ClientHandler`, one per connection;
  - `GameServer`, which holds the registry of online connections, the active
    matches, the game-id counter and the users and results tables;
  - `GameSession`, one per match.

  Every socket write is appended to the server's `outbox`. Each method is
  proved against the pure rules of `MatchRules` and the line builders of
  `Protocol`.
- `lobby.dfy` (module `Lobby`) models `GameLobby`: its ordered roster without
  repeats, the host at its head, and the two notices it sends through the
  server.
- `client.dfy` (module `Client`) covers the protocol and validation logic of
  `GameClient`:
  - the login and registration checks;
  - the invite guard;
  - the decoders for the `GAME_STARTED`, `ONLINE_USERS`, `GRAIN_RESULT`,
    `OPPONENT_SCORE`, `BUFF_ACTIVATED`/`DEBUFF_ACTIVATED`, `GAME_ENDED`,
    match-history and leaderboard lines;
  - a `GameClient` class holding the user, the game, the lobby, the score,
    the item counters, the user list and the socket, whose
    `processServerMessage` is proved against a function `Receive` that says
    how each server line moves the whole client.

  Round-trip lemmas show that what the server writes is read back as meant.

Some collaborators are outside the model and appear as parameters:

- The users table is a map in the server.
- The leaderboard text is a function of that map.
- The clock is a `now` argument.
- The random board is a `Placement` argument, constrained by the facts the
  rejection loops guarantee.
- The game timer is the explicit `EndGameByTimeout` call.


## Model

| member | source | states |
|---|---|---|
| `Wire.Pieces` | src/main/java/com/example/gamesocket/ClientHandler.java:87 | the pieces of a string between the separators, scanned left to right, joined again give the string back; a single piece is the whole string |
| `Wire.DropTrailingEmpty` | src/main/java/com/example/gamesocket/ClientHandler.java:87 | split without a limit drops exactly the trailing empty pieces, and the last piece kept is not empty |
| `Wire.SplitFirst` | src/main/java/com/example/gamesocket/ClientHandler.java:43 | split with limit 2 gives the whole line when the separator is absent, otherwise the text before its first occurrence and everything after it |
| `Wire.SplitFirstChar` | src/main/java/com/example/gamesocket/ClientHandler.java:43-45 | with a one-character separator there are two pieces exactly when the separator occurs, and the head never contains it |
| `Wire.SplitFirstOf` | src/main/java/com/example/gamesocket/ClientHandler.java:43-45 | cutting head + separator + rest at the first separator gives the head and the rest back when the head is free of it |
| `Wire.PiecesOfJoin` | src/main/java/com/example/gamesocket/GameClient.java:1275 | splitting a join on a one-character separator that no part contains gives the parts back, empty ones included |
| `Wire.SplitOfJoin` | src/main/java/com/example/gamesocket/GameClient.java:1275 | the same for split without a limit, provided the last part is not empty |
| `Wire.TerminatedIsJoin` | src/main/java/com/example/gamesocket/GameServer.java:137 | a StringBuilder loop appending part + separator gives the join followed by one separator |
| `Wire.TerminatedDropSep` | src/main/java/com/example/gamesocket/GameSession.java:112-113 | removing the last separator of that loop's result leaves the join, and the result is empty only for no parts |
| `Wire.TrimStart` | src/main/java/com/example/gamesocket/GameClient.java:176-178 | trim removes the longest prefix of chars up to U+0020 and no more |
| `Wire.TrimEnd` | src/main/java/com/example/gamesocket/GameClient.java:176-178 | trim removes the longest suffix of chars up to U+0020 and no more |
| `Wire.TrimIdentity` | src/main/java/com/example/gamesocket/GameClient.java:176-178 | trim is the identity on a string starting and ending with a visible char |
| `Wire.TrimBlank` | src/main/java/com/example/gamesocket/GameClient.java:1277 | trim yields the empty string exactly for blank strings |
| `Wire.ToInt32` | src/main/java/com/example/gamesocket/GameSession.java:319 | the (int) cast of a long stays in 32 bits and keeps every 32-bit value |
| `Wire.ParseIntOfIntToString` | src/main/java/com/example/gamesocket/ClientHandler.java:123 | Integer.parseInt reads back every 32-bit value Integer.toString prints |
| `Wire.IntToStringInjective` | src/main/java/com/example/gamesocket/GameServer.java:161 | distinct numbers print differently |
| `Wire.IntToStringIsPlain` | src/main/java/com/example/gamesocket/GameSession.java:203 | a printed number holds no separator or blank, so it is its own trim |
| `MatchRules.CellsOfDraws` | src/main/java/com/example/gamesocket/GameSession.java:62-94 | the rice cells are exactly the rice draws and the buff and debuff cells exactly their draws |
| `MatchRules.BoardCounts` | src/main/java/com/example/gamesocket/GameSession.java:49-94 | a board has 67 rice cells, 5 buff cells and 3 debuff cells, buffs and debuffs on different cells, whatever grain they sit on |
| `MatchRules.NewMatchInv` | src/main/java/com/example/gamesocket/GameSession.java:30-47 | a new session has both scores 0, no clicks, nothing collected, is not ended and counts 67 rice cells |
| `MatchRules.RiceListFacts` | src/main/java/com/example/gamesocket/GameSession.java:106-111 | the rice-string loop visits each rice cell once, in ascending order |
| `MatchRules.RiceListCells` | src/main/java/com/example/gamesocket/GameSession.java:106-111 | the loop visits exactly the board's rice cells |
| `MatchRules.ClickGuards` | src/main/java/com/example/gamesocket/GameSession.java:139-141 | a click on an ended match or outside [0,100) leaves no trace |
| `MatchRules.RiceClick` | src/main/java/com/example/gamesocket/GameSession.java:156-166 | a player's first click on rice adds the cell to that player's set and to the collected rice and raises that score by exactly 1; a repeat is ignored |
| `MatchRules.RiceCellForEach` | src/main/java/com/example/gamesocket/GameSession.java:149-166 | a rice cell the other player took can still be collected once, for one point |
| `MatchRules.ChaffClick` | src/main/java/com/example/gamesocket/GameSession.java:168-182 | chaff takes one point, never below 0; it is repeatable without a powerup and one-shot with one |
| `MatchRules.ClickTouchesOnlyClicker` | src/main/java/com/example/gamesocket/GameSession.java:184-192 | a click never touches the opponent's score, and collecting a powerup scores exactly like its grain |
| `MatchRules.ClickEnding` | src/main/java/com/example/gamesocket/GameSession.java:212-223 | at 50 points the clicker wins; below that the match ends with the higher scorer exactly when all rice is collected; the ended flag follows the ending |
| `MatchRules.CollectedAll` | src/main/java/com/example/gamesocket/GameSession.java:220 | for collected rice within the board's rice, reaching the size of totalRiceCount means every rice cell is collected |
| `MatchRules.ClickInv` | src/main/java/com/example/gamesocket/GameSession.java:138-224 | every scored click keeps the match invariant: the board, click sets within rice and powerup cells, the collected rice as the union of the players' rice clicks, scores in [0,50] |
| `MatchRules.ItemEffects` | src/main/java/com/example/gamesocket/GameSession.java:236-270 | a buff adds exactly 3 to the user and wins at 50; a debuff sets the opponent to max(s-2,0) and leaves the user alone; no inventory is consulted |
| `MatchRules.ItemInv` | src/main/java/com/example/gamesocket/GameSession.java:229-270 | buffs and debuffs keep the match invariant |
| `MatchRules.EndedIsFinal` | src/main/java/com/example/gamesocket/GameSession.java:138-141 | once ended, clicks (line 139), items (line 230), the timeout (line 274) and quits (line 327) are all ignored |
| `MatchRules.EndsOnlyOnce` | src/main/java/com/example/gamesocket/GameSession.java:291-294 | every step that ends the match starts from a running one, so the ended flag goes from false to true once |
| `MatchRules.TimeoutWinner` | src/main/java/com/example/gamesocket/GameSession.java:273-289 | for players not named DRAW: on timeout the strictly higher scorer wins, and equal scores give DRAW (both directions) |
| `MatchRules.TieNamesDrawPlayer` | src/main/java/com/example/gamesocket/GameSession.java:279-286 | as written: when a player is named DRAW, a tied timeout names that player's own name as the winner |
| `MatchRules.QuitWinner` | src/main/java/com/example/gamesocket/GameSession.java:326-336 | between two distinct players, on a quit the other player wins |
| `MatchRules.SelfMatchQuitterWins` | src/main/java/com/example/gamesocket/GameSession.java:326-336 | as written: in a match of a player against themself, the quitter is named the winner |
| `MatchRules.EndInv` | src/main/java/com/example/gamesocket/GameSession.java:291-294 | ending keeps the match invariant |
| `Protocol.Frame` | src/main/java/com/example/gamesocket/ClientHandler.java:43-45 | a line splits at its first ':' only; the data is empty when there is no ':' |
| `Protocol.FrameOf` | src/main/java/com/example/gamesocket/ClientHandler.java:43-45 | a command word without ':' followed by ':' and any data is read back as that word and that data |
| `Protocol.ChatRequest` | src/main/java/com/example/gamesocket/ClientHandler.java:72-79 | PRIVATE_MESSAGE data is relayed exactly when it holds a ':'; the text after the first ':' may hold more |
| `Protocol.DispatchRoutes` | src/main/java/com/example/gamesocket/ClientHandler.java:42-84 | the switch has a case for exactly the ten request words and each word selects its own case; the seven cases that take data get the whole text after the first ':', GET_ONLINE_USERS, GET_LEADERBOARD and QUIT_GAME take none, and every other word reaches no case |
| `Protocol.ParseLine` | src/main/java/com/example/gamesocket/ClientHandler.java:42-84 | the server dispatches on the command word of a line and hands over the whole data |
| `Protocol.LoginRoundTrip` | src/main/java/com/example/gamesocket/ClientHandler.java:86-91 | a LOGIN line with a comma-free user and password is read back as exactly that user and password |
| `Protocol.RegisterRoundTrip` | src/main/java/com/example/gamesocket/ClientHandler.java:106-111 | the same for REGISTER |
| `Protocol.CommaInPasswordIgnored` | src/main/java/com/example/gamesocket/ClientHandler.java:87-88 | a password holding ',' gives three fields, so the request is ignored without a reply |
| `Protocol.GameActionRoundTrip` | src/main/java/com/example/gamesocket/ClientHandler.java:120-124 | a GAME_ACTION index reaches the session unchanged |
| `Protocol.PrivateMessageRoundTrip` | src/main/java/com/example/gamesocket/ClientHandler.java:72-79 | a private message reaches the relay with its recipient and its whole text, ':' included |
| `Protocol.CreditEffect` | src/main/java/com/example/gamesocket/GameServer.java:237-259 | a player's stats get their score added, one more game, and one more win when won; no other row changes, and an unknown name changes nothing |
| `Protocol.SaveStatsEffect` | src/main/java/com/example/gamesocket/GameServer.java:228-229 | for two distinct registered players the won flag is winner.equals(player): each player gets one game and their own score, a win exactly when named, at most one win in all, and none on DRAW while neither player is named DRAW |
| `Protocol.DrawNamedPlayerCredited` | src/main/java/com/example/gamesocket/GameServer.java:228-229 | as written: a tie, stored with winner DRAW, credits a win to a player named DRAW |
| `Protocol.SelfGameCreditedTwice` | src/main/java/com/example/gamesocket/GameServer.java:228-229 | as written: a game of a player against themself credits that row with two games, both scores, and two wins when the player is the winner |
| `Lobby.RemoveFirst` | src/main/java/com/example/gamesocket/GameLobby.java:26-28 | List.remove deletes the first occurrence and keeps the others in order; an absent name changes nothing |
| `Lobby.AddedIdempotent` | src/main/java/com/example/gamesocket/GameLobby.java:20-24 | adding twice is adding once |
| `Lobby.AddedDistinct` | src/main/java/com/example/gamesocket/GameLobby.java:20-24 | adding keeps the roster without repeats and contributes exactly that name |
| `Lobby.RemoveFirstDistinct` | src/main/java/com/example/gamesocket/GameLobby.java:26-28 | removing drops exactly that name, keeps the roster without repeats and shortens it by one when present |
| `Lobby.AddThenRemove` | src/main/java/com/example/gamesocket/GameLobby.java:20-28 | removing a name just added restores the roster |
| `Lobby.RemoveFirstKeepsHead` | src/main/java/com/example/gamesocket/GameLobby.java:26-28 | removing anyone but the first name keeps the first name first |
| `Lobby.AddedKeepsHead` | src/main/java/com/example/gamesocket/GameLobby.java:20-24 | adding never moves the first name |
| `Lobby.CountIsDistinctNames` | src/main/java/com/example/gamesocket/GameLobby.java:68-70 | a roster without repeats has as many entries as distinct players |
| `Lobby.BroadcastReaches` | src/main/java/com/example/gamesocket/GameLobby.java:60-65 | a notice loop writes the notice to exactly the connections it visits |
| `Lobby.HandlersInOnline` | src/main/java/com/example/gamesocket/GameLobby.java:44-46 | the connections a roster loop finds are the online connections of the roster's names |
| `Lobby.NoticeReaches` | src/main/java/com/example/gamesocket/GameLobby.java:58-66 | a roster notice reaches exactly the online members, each with the notice |
| `Lobby.GameLobby.constructor` | src/main/java/com/example/gamesocket/GameLobby.java:12-18 | a new lobby's roster is exactly [host] |
| `Lobby.GameLobby.AddPlayer` | src/main/java/com/example/gamesocket/GameLobby.java:20-24 | appends the player only when absent; the roster stays without repeats and the host first |
| `Lobby.GameLobby.RemovePlayer` | src/main/java/com/example/gamesocket/GameLobby.java:26-28 | removes that player keeping the others' order; the host stays first until it is removed itself |
| `Lobby.GameLobby.GetPlayerCount` | src/main/java/com/example/gamesocket/GameLobby.java:68-70 | the count is the roster length, which is the number of distinct players |
| `Lobby.GameLobby.StartLobby` | src/main/java/com/example/gamesocket/GameLobby.java:42-56 | every online member gets LOBBY_READY:id:host:roster in roster order and is marked busy and in this lobby; then everyone gets the presence line |
| `Lobby.GameLobby.NotifyPlayersUpdate` | src/main/java/com/example/gamesocket/GameLobby.java:58-66 | every online member gets LOBBY_UPDATE in the same format; nothing else changes |
| `GameSocket.GameIdOfInjective` | src/main/java/com/example/gamesocket/GameServer.java:161 | the ids GAME_n of distinct counter values differ |
| `GameSocket.Without` | src/main/java/com/example/gamesocket/GameServer.java:113 | removing a name leaves exactly the other names |
| `GameSocket.RosterAdd` | src/main/java/com/example/gamesocket/GameServer.java:107 | putting a connection keeps the registry: each online name listed once in traversal order |
| `GameSocket.RosterRemove` | src/main/java/com/example/gamesocket/GameServer.java:113 | removing a name keeps the registry |
| `GameSocket.RiceBuiltIsTerminated` | src/main/java/com/example/gamesocket/GameSession.java:106-111 | the StringBuilder loop of startGame yields each rice index followed by ':' |
| `GameSocket.RiceBuilderDone` | src/main/java/com/example/gamesocket/GameSession.java:112-113 | dropping its last ':' gives the rice string, and an empty builder gives "" |
| `GameSocket.ClientHandler.constructor` | src/main/java/com/example/gamesocket/ClientHandler.java:15-26 | a new connection is not in a game and has no user name and no game id |
| `GameSocket.ClientHandler.SendMessage` | src/main/java/com/example/gamesocket/ClientHandler.java:144-148 | one line is written to this connection |
| `GameSocket.ClientHandler.SetInGame` | src/main/java/com/example/gamesocket/ClientHandler.java:154-156 | sets inGame |
| `GameSocket.ClientHandler.SetCurrentGameId` | src/main/java/com/example/gamesocket/ClientHandler.java:162-164 | sets the game id |
| `GameSocket.ClientHandler.SetCurrentLobbyId` | src/main/java/com/example/gamesocket/GameLobby.java:49 | sets the lobby id (a setter the lobby calls) |
| `GameSocket.ClientHandler.HandleLogin` | src/main/java/com/example/gamesocket/ClientHandler.java:86-104 | nothing unless the data has exactly two fields; LOGIN_FAILED:Invalid credentials, or LOGIN_FAILED:User already online without adding; otherwise the name is set, the client added and LOGIN_SUCCESS:user sent |
| `GameSocket.ClientHandler.Enter` | src/main/java/com/example/gamesocket/ClientHandler.java:96-98 | the success path: the name maps to this connection, everyone gets the presence line, then LOGIN_SUCCESS |
| `GameSocket.ClientHandler.HandleRegister` | src/main/java/com/example/gamesocket/ClientHandler.java:106-118 | nothing unless two fields; a new row and REGISTER_SUCCESS when the name is free, else REGISTER_FAILED |
| `GameSocket.ClientHandler.HandleGameAction` | src/main/java/com/example/gamesocket/ClientHandler.java:120-129 | ignored without a game id or with non-integer data; otherwise the click goes to the session under that id |
| `GameSocket.ClientHandler.HandleQuitGame` | src/main/java/com/example/gamesocket/ClientHandler.java:131-142 | acts only when in a game with an id; then the session's quit runs (a null user on a running match throws and leaves the flags), otherwise inGame becomes false, the id null and everyone gets the presence line after the quit's lines |
| `GameSocket.ClientHandler.QuitSession` | src/main/java/com/example/gamesocket/ClientHandler.java:135 | the quit of the session under this connection's game id, when there is one; that match is ended afterwards |
| `GameSocket.ClientHandler.HandleMessage` | src/main/java/com/example/gamesocket/ClientHandler.java:42-84 | the command word selects the handler, each case as its handler states; an unknown word does nothing |
| `GameSocket.ClientHandler.HandleAccountCommand` | src/main/java/com/example/gamesocket/ClientHandler.java:47-79 | LOGIN, REGISTER, GET_ONLINE_USERS, INVITE, GET_LEADERBOARD and PRIVATE_MESSAGE, each as its server method states |
| `GameSocket.ClientHandler.HandleResponseCommand` | src/main/java/com/example/gamesocket/ClientHandler.java:60-65 | ACCEPT_INVITATION and REJECT_INVITATION pass this user as invitee |
| `GameSocket.ClientHandler.HandleActionCommand` | src/main/java/com/example/gamesocket/ClientHandler.java:66-68 | GAME_ACTION is the game-action handler |
| `GameSocket.ClientHandler.HandleQuitCommand` | src/main/java/com/example/gamesocket/ClientHandler.java:80-82 | QUIT_GAME is the quit handler |
| `GameSocket.ClientHandler.Cleanup` | src/main/java/com/example/gamesocket/ClientHandler.java:170-178 | a logged-in name leaves the registry first; the quit runs only if still in a game, and that match has ended afterwards |
| `GameSocket.ClientHandler.LeaveGame` | src/main/java/com/example/gamesocket/ClientHandler.java:138-140 | the connection leaves its game and everyone gets the presence line |
| `GameSocket.GameServer.constructor` | src/main/java/com/example/gamesocket/GameServer.java:22-28 | no one online, no matches, the counter at 1 |
| `GameSocket.GameServer.RegisterUser` | src/main/java/com/example/gamesocket/GameServer.java:280-295 | the insert succeeds exactly for a name without a row, adding a row with zero statistics |
| `GameSocket.GameServer.BuildOnlineUsersMessage` | src/main/java/com/example/gamesocket/GameServer.java:130-140 | ONLINE_USERS: then name,score,STATUS; per online user in traversal order, BUSY exactly when that connection is in a game |
| `GameSocket.GameServer.BroadcastOnlineUsers` | src/main/java/com/example/gamesocket/GameServer.java:118-123 | the presence line goes to every online connection |
| `GameSocket.GameServer.SendToAll` | src/main/java/com/example/gamesocket/GameServer.java:120-122 | the loop writes the message to each online connection in traversal order |
| `GameSocket.GameServer.SendOnlineUsersToClient` | src/main/java/com/example/gamesocket/GameServer.java:125-128 | the presence line goes to that connection only |
| `GameSocket.GameServer.AddClient` | src/main/java/com/example/gamesocket/GameServer.java:106-110 | inserts exactly that name, leaves every other entry as it was, and everyone gets the presence line |
| `GameSocket.GameServer.RemoveClient` | src/main/java/com/example/gamesocket/GameServer.java:112-116 | deletes exactly that name, keeps the others and their order, and everyone gets the presence line |
| `GameSocket.GameServer.SendPrivateMessage` | src/main/java/com/example/gamesocket/GameServer.java:88-104 | INCOMING_MESSAGE:sender:text to an online recipient; otherwise SYSTEM_MESSAGE to the sender only, if online |
| `GameSocket.GameServer.HandleGameInvitation` | src/main/java/com/example/gamesocket/GameServer.java:142-147 | GAME_INVITATION is forwarded only to an online invitee not in a game; otherwise nothing is sent |
| `GameSocket.GameServer.HandleInvitationResponse` | src/main/java/com/example/gamesocket/GameServer.java:149-158 | nothing when the inviter is offline; a rejection sends INVITATION_REJECTED:invitee to the inviter only; an acceptance starts a game with the inviter as player1 |
| `GameSocket.GameServer.StartGame` | src/main/java/com/example/gamesocket/GameServer.java:160-177 | a new session under GAME_n from the counter, registered even with a player offline; only with both online are both in that game, sent GAME_STARTED and everyone the presence line |
| `GameSocket.GameServer.Open` | src/main/java/com/example/gamesocket/GameServer.java:161-163 | the next counter value names the new session, an id no session had, and the counter moves on by one |
| `GameSocket.GameServer.Begin` | src/main/java/com/example/gamesocket/GameServer.java:165-176 | with both players online they enter the game and the session starts; otherwise nothing is sent and no flag moves |
| `GameSocket.GameServer.Enlist` | src/main/java/com/example/gamesocket/GameServer.java:169-172 | both connections are in the game with its id |
| `GameSocket.GameServer.HandleGameAction` | src/main/java/com/example/gamesocket/GameServer.java:179-184 | a click for the session under the id; nothing when there is none, as after endGame |
| `GameSocket.GameServer.HandlePlayerQuit` | src/main/java/com/example/gamesocket/ClientHandler.java:135 | the quit of the session under the id; nothing when there is none |
| `GameSocket.GameServer.UpdatePlayerStats` | src/main/java/com/example/gamesocket/GameServer.java:237-259 | the users table as the UPDATE leaves it |
| `GameSocket.GameServer.SaveGameResult` | src/main/java/com/example/gamesocket/GameServer.java:206-235 | the result is stored and each player credited with a win exactly when the winner string equals their name |
| `GameSocket.GameServer.RemoveSession` | src/main/java/com/example/gamesocket/GameServer.java:188 | exactly that session leaves the active matches |
| `GameSocket.GameServer.ReleasePlayers` | src/main/java/com/example/gamesocket/GameServer.java:190-200 | each player who is online is no longer in a game and has no game id |
| `GameSocket.GameServer.Retire` | src/main/java/com/example/gamesocket/GameServer.java:188-202 | the session is gone, the result stored and credited, and both players free |
| `GameSocket.GameServer.EndGame` | src/main/java/com/example/gamesocket/GameServer.java:186-204 | removes the session, frees whichever players are online, stores and credits the result, and sends everyone the presence line |
| `GameSocket.GameSession.QuitKept` | src/main/java/com/example/gamesocket/GameSession.java:326-359 | a finished quit only extends the outbox, its lines are QUIT_LOSS and QUIT_WIN, and it throws only for a null quitter on a running match |
| `GameSocket.GameSession.PutScore` | src/main/java/com/example/gamesocket/GameSession.java:166 | playerScores.put of one player |
| `GameSocket.GameSession.AddClick` | src/main/java/com/example/gamesocket/GameSession.java:161 | one index joins one player's click set |
| `GameSocket.GameSession.constructor` | src/main/java/com/example/gamesocket/GameSession.java:30-95 | both scores 0, empty click sets, not ended, and the board the draws describe |
| `GameSocket.GameSession.RicePositions` | src/main/java/com/example/gamesocket/GameSession.java:106-113 | the rice indices in ascending order joined by ':' with no trailing ':' |
| `GameSocket.GameSession.StartGame` | src/main/java/com/example/gamesocket/GameSession.java:97-124 | the clock starts; only with both players online each gets GAME_STARTED with the other as opponent, duration 100 and the rice string, and the timer is armed |
| `GameSocket.GameSession.AnnounceEnd` | src/main/java/com/example/gamesocket/GameSession.java:305-316 | GAME_ENDED:winner,score1,score2 to each player online |
| `GameSocket.GameSession.EndGame` | src/main/java/com/example/gamesocket/GameSession.java:291-320 | ignored once ended; otherwise ended once, the timer cancelled, GAME_ENDED sent and the server ends the match with the elapsed seconds |
| `GameSocket.GameSession.Finish` | src/main/java/com/example/gamesocket/GameSession.java:294-319 | the body of endGame for a running match |
| `GameSocket.GameSession.Mark` | src/main/java/com/example/gamesocket/GameSession.java:149-182 | the score and click bookkeeping of a click, as the rules' Collect step |
| `GameSocket.GameSession.ReportClick` | src/main/java/com/example/gamesocket/GameSession.java:194-210 | GRAIN_RESULT to the clicker, OPPONENT_GRAIN_CLICK and OPPONENT_SCORE to the opponent, each if online |
| `GameSocket.GameSession.HandlePlayerAction` | src/main/java/com/example/gamesocket/GameSession.java:138-224 | exactly the rules' Click step: ignored, throwing before any change, or scored and reported and ended at 50 or when all rice is collected |
| `GameSocket.GameSession.Play` | src/main/java/com/example/gamesocket/GameSession.java:143-223 | a counting click from the score update to the end checks |
| `GameSocket.GameSession.Report` | src/main/java/com/example/gamesocket/GameSession.java:202-223 | the click's lines, then the end checks |
| `GameSocket.GameSession.CheckEnd` | src/main/java/com/example/gamesocket/GameSession.java:212-223 | ends at 50 with the clicker as winner, else when all rice is collected with the higher scorer |
| `GameSocket.GameSession.HandleUseBuffDebuff` | src/main/java/com/example/gamesocket/GameSession.java:229-271 | exactly the rules' item step: ignored once ended; a buff adds 3 and may end the match; a debuff lowers the opponent to max(s-2,0) and never ends it |
| `GameSocket.GameSession.Buff` | src/main/java/com/example/gamesocket/GameSession.java:236-254 | the buff branch: new score, its lines, and the end at 50 |
| `GameSocket.GameSession.Bump` | src/main/java/com/example/gamesocket/GameSession.java:238-239 | the user's score rises by exactly 3 |
| `GameSocket.GameSession.Boost` | src/main/java/com/example/gamesocket/GameSession.java:241-254 | the buff's lines, then the end at 50 |
| `GameSocket.GameSession.ReportBuff` | src/main/java/com/example/gamesocket/GameSession.java:241-248 | BUFF_ACTIVATED:+n to the user and OPPONENT_SCORE to the opponent |
| `GameSocket.GameSession.Debuff` | src/main/java/com/example/gamesocket/GameSession.java:255-270 | the debuff branch: the opponent's new score and its lines |
| `GameSocket.GameSession.ReportDebuff` | src/main/java/com/example/gamesocket/GameSession.java:261-269 | DEBUFF_SUCCESS and OPPONENT_SCORE to the user, DEBUFF_ACTIVATED:-n to the target |
| `GameSocket.GameSession.HandlePlayerQuit` | src/main/java/com/example/gamesocket/GameSession.java:326-359 | ignored once ended; otherwise ended once, and the other player wins after QUIT_LOSS to the quitter and QUIT_WIN to the winner, both in player1,player2 score order |
| `GameSocket.GameSession.Leave` | src/main/java/com/example/gamesocket/GameSession.java:336-358 | the quit's lines and the server's end of the match with the other player as winner |
| `GameSocket.GameSession.AnnounceQuit` | src/main/java/com/example/gamesocket/GameSession.java:343-355 | QUIT_LOSS to the quitter and QUIT_WIN to the winner, each if online |
| `GameSocket.GameSession.EndGameAllRiceCollected` | src/main/java/com/example/gamesocket/GameSession.java:361-397 | ignored once ended; otherwise the higher scorer or DRAW wins, with a duration of 0 |
| `GameSocket.GameSession.Leader` | src/main/java/com/example/gamesocket/GameSession.java:370-380 | the strictly higher scorer, or DRAW |
| `GameSocket.GameSession.EndGameByTimeout` | src/main/java/com/example/gamesocket/GameSession.java:273-289 | nothing once ended; otherwise endGame with the higher scorer, or DRAW |
| `Client.LoginSubmitted` | src/main/java/com/example/gamesocket/GameClient.java:175-201 | LOGIN goes out exactly when the trimmed server, user and password are non-empty, and the server reads back the trimmed credentials |
| `Client.RegisterSubmitted` | src/main/java/com/example/gamesocket/GameClient.java:300-359 | REGISTER goes out exactly when: server and all fields are non-empty, the user has 3 to 20 chars, the password at least 6 and equals the confirmation |
| `Client.InviteGuard` | src/main/java/com/example/gamesocket/GameClient.java:519-531 | INVITE is sent only for an entry without (BUSY) that does not name the current user, and the server reads it as an invite of exactly that name |
| `Client.BusyEntryNotInvited` | src/main/java/com/example/gamesocket/GameClient.java:1286-1289 | the entry shown for a BUSY user never yields an invitation |
| `Client.EndedLineClassified` | src/main/java/com/example/gamesocket/GameClient.java:1425-1452 | QUIT_LOSS is a loss not completed; QUIT_WIN or the user's own name a win; DRAW a draw; another player's name a loss |
| `Client.DecodeRicePositions` | src/main/java/com/example/gamesocket/GameClient.java:839-850 | the loop collects exactly the integers among the trimmed ':' pieces and skips the rest |
| `Client.NumeralsParse` | src/main/java/com/example/gamesocket/GameClient.java:843-849 | printed 32-bit integers parse back to the same set |
| `Client.NumeralsSplit` | src/main/java/com/example/gamesocket/GameClient.java:842 | numerals joined by ':' split back into those numerals |
| `Client.RiceRoundTrip` | src/main/java/com/example/gamesocket/GameClient.java:839-850 | decoding the rice string the session builds yields exactly its rice index set |
| `Client.GameStartedRoundTrip` | src/main/java/com/example/gamesocket/GameClient.java:1313-1323 | GAME_STARTED data reads back as the id, the opponent, duration 100 and exactly the board's rice cells |
| `Client.RowsSplit` | src/main/java/com/example/gamesocket/GameClient.java:1275 | the presence rows split back into one piece per user |
| `Client.RowRead` | src/main/java/com/example/gamesocket/GameClient.java:1278-1282 | a user's row reads back as name, score and status word |
| `Client.ListRowsOfFields` | src/main/java/com/example/gamesocket/GameClient.java:1276-1295 | reading the rows in turn gives the table of the listed users and the list without the current user |
| `Client.OnlineUsersRoundTrip` | src/main/java/com/example/gamesocket/GameClient.java:1264-1296 | the server's ONLINE_USERS line gives a table of exactly the listed users and a list of all but the current user, BUSY ones marked |
| `Client.DirectoryNames` | src/main/java/com/example/gamesocket/GameClient.java:1284 | the table holds exactly the listed names, and the list is no longer than the rows |
| `Client.GrainResultRoundTrip` | src/main/java/com/example/gamesocket/GameClient.java:1355-1359 | the server's GRAIN_RESULT for a grid cell is read back as that cell, its tag and the score |
| `Client.OpponentScoreRoundTrip` | src/main/java/com/example/gamesocket/GameClient.java:1394-1397 | the server's OPPONENT_SCORE is read back as its player and score |
| `Client.SignedRoundTrip` | src/main/java/com/example/gamesocket/GameClient.java:1147-1149 | a sign followed by a numeral reads back as that number |
| `Client.ActivatedRoundTrip` | src/main/java/com/example/gamesocket/GameClient.java:1145-1172 | BUFF_ACTIVATED:+n and DEBUFF_ACTIVATED:-n from the server read back as n |
| `Client.ClickRoundTrip` | src/main/java/com/example/gamesocket/GameClient.java:909 | a grain click's GAME_ACTION line reaches the server as an action on that cell |
| `Client.InvitationAnswerRoundTrip` | src/main/java/com/example/gamesocket/GameClient.java:1299-1311 | the dialog's answer reaches the server as an acceptance or refusal naming the inviter |
| `Client.ItemRequestsUnrecognised` | src/main/java/com/example/gamesocket/ClientHandler.java:47-83 | the USE_BUFF and USE_DEBUFF lines match no case of the server's dispatch |
| `Client.ThrownSticks` | src/main/java/com/example/gamesocket/GameClient.java:1276-1281 | once a row's score fails to parse, later rows are not read |
| `Client.GameClient.constructor` | src/main/java/com/example/gamesocket/GameClient.java:69-92 | no user, game, opponent or lobby; score and item counts 0; no socket; nothing listed or sent |
| `Client.GameClient.SendMessage` | src/main/java/com/example/gamesocket/GameClient.java:1764-1768 | a line is written only while a writer is open |
| `Client.GameClient.SubmitLogin` | src/main/java/com/example/gamesocket/GameClient.java:175-201 | LOGIN is written only when the form passes, and then either on the new connection or, when that fails, on the socket and writer kept from before; with neither nothing is written |
| `Client.GameClient.SubmitRegistration` | src/main/java/com/example/gamesocket/GameClient.java:298-359 | an earlier socket is closed first; REGISTER is written only when the form passes, on the new connection or, when that fails, on the writer kept from before |
| `Client.GameClient.Invite` | src/main/java/com/example/gamesocket/GameClient.java:519-531 | sends INVITE exactly when the guard allows |
| `Client.GameClient.ClickGrain` | src/main/java/com/example/gamesocket/GameClient.java:907-910 | GAME_ACTION is sent only while a game is running |
| `Client.GameClient.UseBuff` | src/main/java/com/example/gamesocket/GameClient.java:973-979 | USE_BUFF is sent only when the buff count is above 0 |
| `Client.GameClient.UseDebuff` | src/main/java/com/example/gamesocket/GameClient.java:1010-1016 | USE_DEBUFF is sent only when the debuff count is above 0 |
| `Client.GameClient.Logout` | src/main/java/com/example/gamesocket/GameClient.java:585-615 | the writer is closed and the user, game, opponent and score are reset |
| `Client.GameClient.LoginSucceeded` | src/main/java/com/example/gamesocket/GameClient.java:1076-1087 | the user is recorded, an empty list is built and GET_ONLINE_USERS is requested |
| `Client.GameClient.UpdateOnlineUsers` | src/main/java/com/example/gamesocket/GameClient.java:1264-1297 | ignored before the list exists; otherwise the table and list become exactly the decoded listing |
| `Client.GameClient.ReadUserRow` | src/main/java/com/example/gamesocket/GameClient.java:1277-1293 | one row into the table and the list, as the row decoder says |
| `Client.GameClient.HandleGameStarted` | src/main/java/com/example/gamesocket/GameClient.java:1313-1331 | id and opponent taken as read; a complete line resets both counters to 0 (lines 792-793) and records exactly the decoded rice cells; a bad line throws; no other field changes |
| `Client.GameClient.HandleGrainResult` | src/main/java/com/example/gamesocket/GameClient.java:1355-1392 | the score is taken from any readable line; on a grid cell SCORE_BUFF adds one buff and SCORE_DEBUFF one debuff, other tags nothing; no other field changes |
| `Client.GameClient.HandleOpponentScore` | src/main/java/com/example/gamesocket/GameClient.java:1394-1405 | a score naming the current user replaces the user's score, and nothing else changes |
| `Client.GameClient.BuffActivated` | src/main/java/com/example/gamesocket/GameClient.java:1145-1156 | +n sets the score to n and uses up one buff; a line without + changes nothing |
| `Client.GameClient.DebuffSucceeded` | src/main/java/com/example/gamesocket/GameClient.java:1158-1163 | uses up one debuff |
| `Client.GameClient.DebuffActivated` | src/main/java/com/example/gamesocket/GameClient.java:1165-1174 | -n sets the user's score to n |
| `Client.GameClient.AnswerInvitation` | src/main/java/com/example/gamesocket/GameClient.java:1299-1311 | ACCEPT_INVITATION or REJECT_INVITATION naming the inviter goes back |
| `Client.GameClient.ProcessServerMessage` | src/main/java/com/example/gamesocket/GameClient.java:1070-1262 | the whole client after a line (user, game, opponent, lobby, score, items, rice, user table and list, socket and the lines sent), whether its case threw, and how a GAME_ENDED line was read, are exactly what the state-level `Receive` gives for the old state |
| `Client.WordOfRoutes` | src/main/java/com/example/gamesocket/GameClient.java:1075-1261 | the switch has a case for exactly the 23 words the client handles; every other word reaches no case |
| `Client.WordTextSelects` | src/main/java/com/example/gamesocket/GameClient.java:1075-1261 | each case that has a word of its own is selected by exactly that word, so no two cases share a word |
| `Client.UnknownWordIgnored` | src/main/java/com/example/gamesocket/GameClient.java:1070-1262 | a line whose word has no case leaves every field as it was, sends nothing and does not throw |
| `Client.DisplayWordsKeepState` | src/main/java/com/example/gamesocket/GameClient.java:1089-1261 | the alerts, the chat, the two tables, the opponent's click and the lobby update change no field; only the chat, table, click and update lines can throw |
| `Client.BackToMenu` | src/main/java/com/example/gamesocket/GameClient.java:1714-1728 | after a readable GAME_ENDED line, whatever the dialog answer, and after LOBBY_CLOSED: no game, no opponent, score 0, an empty list, GET_ONLINE_USERS requested while a writer exists; user, items, table and socket kept; the lobby id cleared only by LOBBY_CLOSED |
| `Client.ServerEndReturnsToMenu` | src/main/java/com/example/gamesocket/GameClient.java:1425-1452 | the GAME_ENDED line the server writes is read without a throw and always brings the client back to the menu: no game, no opponent, score 0 |
| `Client.ReactTouches` | src/main/java/com/example/gamesocket/GameClient.java:1070-1262 | what a line may change: the socket closes only on REGISTER_SUCCESS, the user changes only on LOGIN_SUCCESS, the game id only when a game starts or is left, the lobby id only on LOBBY_READY and LOBBY_CLOSED, the score and the items only on the lines of a match; at most one line goes back, GET_ONLINE_USERS or the invitation answer |
| `Client.GameClient.BackToMainMenu` | src/main/java/com/example/gamesocket/GameClient.java:1714-1728 | no game, no opponent, score 0, an empty list, and GET_ONLINE_USERS requested again |
| `Client.GameClient.HandleGameEnded` | src/main/java/com/example/gamesocket/GameClient.java:1425-1452 | the outcome is classified against the current user; a line without an outcome field throws and changes nothing; otherwise the end dialog returns to the main menu on every branch (lines 1730-1762) |
| `Client.GameClient.RegisterSucceeded` | src/main/java/com/example/gamesocket/GameClient.java:1094-1112 | the socket is closed, while the writer is kept |
| `Client.GameClient.LobbyReady` | src/main/java/com/example/gamesocket/GameClient.java:1207-1217 | the lobby id is the first of three ':' fields; fewer than three fields throw and keep the old id |
| `Client.GameClient.LobbyClosed` | src/main/java/com/example/gamesocket/GameClient.java:1218-1224 | the lobby id is cleared and the main menu comes back, with GET_ONLINE_USERS requested |
| `Client.AddRow` | src/main/java/com/example/gamesocket/GameClient.java:1603-1616 | one row's fate applied to the entries read so far |
| `Client.HistoryEntriesRead` | src/main/java/com/example/gamesocket/GameClient.java:1601-1619 | every entry comes from a row with at least 7 fields whose scores parse; there are no more entries than rows |
| `Client.CountsBounded` | src/main/java/com/example/gamesocket/GameClient.java:1622-1625 | wins + losses + draws never exceed the number of entries |
| `Client.ReadMatchHistory` | src/main/java/com/example/gamesocket/GameClient.java:1601-1625 | entries are the rows of at least 7 fields; wins, losses and draws count the WIN, LOSS and DRAW entries |
| `Client.ReadHistoryRows` | src/main/java/com/example/gamesocket/GameClient.java:1601-1619 | the reading loop gives exactly the decoded table |
| `Client.Summarize` | src/main/java/com/example/gamesocket/GameClient.java:1622-1625 | the three counts by result word |
| `Client.RanksConsecutive` | src/main/java/com/example/gamesocket/GameClient.java:1693-1701 | leaderboard ranks are 1, 2, 3, ... in entry order, whatever blank rows were skipped |
| `Client.RatesPercent` | src/main/java/com/example/gamesocket/GameClient.java:1699 | every win rate shown ends in % |
| `Client.ReadLeaderboard` | src/main/java/com/example/gamesocket/GameClient.java:1693-1702 | the loop with its rank counter from 1 gives exactly the decoded table |

## Left out

- Sockets, reader threads and `synchronized`: every write is an entry appended to the server's `outbox`, and each handler runs to completion before the next. The race between the timer thread and a click is not modelled.
- The database: the users table is a map, the leaderboard text a function of it, and SQL exceptions are not modelled. `authenticateUser` is a lookup and `registerUser` an insert into the map. User names and passwords compare exactly, while MySQL's default collation ignores case and accents. The `VARCHAR(50)` and `VARCHAR(100)` column widths are not modelled.
- GameSocket.GameServer.AuthenticateUser: matches the name and the password exactly; under MySQL's default collation the query also matches them ignoring case and accents.
- GameSocket.GameServer.RegisterUser: treats names that differ only in case as different users, where MySQL's unique key would refuse the second one; a name longer than the 50-character column, or a password longer than the 100-character one, is not refused, where MySQL in strict mode makes the insert fail.
- Wire.ParseInt: accepts the ASCII digits 0-9 only. Java's `Integer.parseInt` also accepts the other Unicode decimal digits (through `Character.digit`), so for a line such as `GAME_ACTION:٥` Java reads 5 where the model reads a malformed number.
- GameSocket.ClientHandler.HandleGameAction: inherits the ASCII-only digits of `Wire.ParseInt`; an index written in other Unicode digits is rejected here, while Java accepts it.
- `Random` in `initializeItems`: the board is a `Placement` argument that carries what the rejection loops guarantee (distinct cells, 67 rice, 5 buffs and 3 debuffs).
- `System.currentTimeMillis` is the `now` argument. The `Timer` task is the explicit `EndGameByTimeout` call, and its cancellation is the `timerArmed` flag.
- The iteration order of the `ConcurrentHashMap` of online clients is an `order` sequence. The model fixes it as insertion order with removals, while Java gives no order.
- Integers are unbounded. Scores and the client's item counters are never near 32 bits. The game-id counter is not wrapped. The `(int)` cast of the duration is `ToInt32`.
- Java `String.length` counts UTF-16 units. Here a string is a sequence of `char`, so the 3-to-20 and at-least-6 checks of registration count chars.
- `GameServer.handlePlayerQuit` is called at `ClientHandler.java:135` but is not in `GameServer.java`. It is modelled as a lookup of the session by id followed by that session's quit.
- `ClientHandler.setCurrentLobbyId` is called at `GameLobby.java:49` but is not in `ClientHandler.java`. It is modelled as a plain setter of a `currentLobbyId` field.
- `GameLobby` is never constructed by the server. The lobby is modelled on its own, and no lobby start/leave flow and no server-side inventory are added.
- GameSocket.GameServer.HandleInvitationResponse: an invitation accepted with a null invitee draws a game id, puts a `GameSession` with a null player2 into `activeSessions`, and then throws at `onlineClients.get(null)`, because a `ConcurrentHashMap` refuses null keys. The model keeps the drawn id and the throw, but not that orphan session: a session's players are always names here.
- The name DRAW is not reserved: registration checks only the length, and `registerUser` checks nothing. A player named DRAW is therefore credited a win on every tie, because `GameSession.java:285` and `:379` write DRAW as the winner and `saveGameResult` compares names (`DrawNamedPlayerCredited`, `TieNamesDrawPlayer`). Their opponent's client also reads that player's outright win as a draw. The model follows the code, and `TimeoutWinner` and `SaveStatsEffect` state their DRAW clauses only for players not named DRAW.
- `handleInvitationResponse` does not refuse an invitation accepted by its own sender, so `startGame(me, me)` can run. A quit then names the quitter as the winner (`SelfMatchQuitterWins`), and `saveGameResult` credits that row twice (`SelfGameCreditedTwice`). The model follows the code, and `QuitWinner` and `SaveStatsEffect` state their other clauses for two distinct players.
- `REGISTER_SUCCESS` is sent without the user name, and the model follows the code.
- The grain-result tags do not match. The server writes `RICE_BUFF`, `RICE_DEBUFF`, `CHAFF_BUFF` and `CHAFF_DEBUFF`, while the client's switch looks for `SCORE_BUFF` and `SCORE_DEBUFF`. Each side is modelled as written, and no property across the two is stated.
- The client sends `USE_BUFF` and `USE_DEBUFF`, which no case of `ClientHandler.handleMessage` handles (`ItemRequestsUnrecognised`). The server's `handleUseBuffDebuff` is modelled on its own.
- The JavaFX user interface of `GameClient` is not modelled: dialogs, toasts, the grain layout, animations and the chat, lobby and system-notice panes. A handler's screen work is left out, and so is anything that throws only inside it (for example, `LOBBY_READY` building the lobby screen). `OPPONENT_GRAIN_CLICK` and `LOBBY_UPDATE` keep only the reading of their fields, which can throw.
- The button pressed in the end-of-game dialog is not modelled, because every branch of `showGameEndDialog` returns to the main menu.
- A line written on a closed socket is lost. The client's `sent` holds what was handed to the writer, and `open` says whether the socket is still open.
- The `Platform.runLater` deferral of the `GET_ONLINE_USERS` request after a login is not modelled: the request is written at once.
- The client's connection handshake is the `reachable` argument, and the answer to the invitation dialog is the `accept` argument.
- GameSocket.ClientHandler.HandleQuitGame: states the session's quit lines `QUIT_LOSS` and `QUIT_WIN` as a prefix of what the quit wrote, not the lines of the `endGame` that follows.
- GameSocket.ClientHandler.Cleanup: states the registry change, the game flags and that the match has ended, not the result stored or the lines written by the quit, which `HandleQuitGame` states.
