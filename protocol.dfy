/** The line protocol between the game client and the server: how a line is
    framed, the commands a connection accepts, the lines the server sends, the
    ONLINE_USERS presence line and the per-player statistics of a finished
    game. */
module Protocol {
  import opened Wire
  import opened MatchRules

  // ---------------------------------------------------------------------------
  // Framing
  // ---------------------------------------------------------------------------

  /** `line.split(":", 2)`: the command before the first ':' and the data
      after it, or the whole line and "" when there is no ':'. */
  function Frame(line: string): (r: (string, string))
    ensures ':' in line ==> line == r.0 + ":" + r.1 && ':' !in r.0
    ensures ':' !in line ==> r == (line, "")
  {
    SplitFirstChar(line, ":");
    var parts := SplitFirst(line, ":");
    (parts[0], Rest(parts))
  }

  lemma FrameOf(command: string, data: string)
    requires ':' !in command
    ensures Frame(command + ":" + data) == (command, data)
  {
    SplitFirstOf(command, ":", data);
  }

  // ---------------------------------------------------------------------------
  // Commands a connection accepts
  // ---------------------------------------------------------------------------

  datatype Command =
    | Login(data: string)
    | Register(data: string)
    | GetOnlineUsers
    | Invite(invitee: string)
    | AcceptInvitation(inviter: string)
    | RejectInvitation(inviter: string)
    | GameAction(data: string)
    | GetLeaderboard
    | PrivateMessage(data: string)
    | QuitGame
    | Unrecognised

  /** The switch of ClientHandler.handleMessage. */
  function ParseCommand(line: string): Command
  {
    var (command, data) := Frame(line);
    Dispatch(command, data)
  }

  /** The command word selects the handler; an unknown word is ignored. */
  function Dispatch(command: string, data: string): Command
  {
    if command == "LOGIN" then Login(data)
    else if command == "REGISTER" then Register(data)
    else if command == "GET_ONLINE_USERS" then GetOnlineUsers
    else if command == "INVITE" then Invite(data)
    else if command == "ACCEPT_INVITATION" then AcceptInvitation(data)
    else if command == "REJECT_INVITATION" then RejectInvitation(data)
    else if command == "GAME_ACTION" then GameAction(data)
    else if command == "GET_LEADERBOARD" then GetLeaderboard
    else if command == "PRIVATE_MESSAGE" then PrivateMessage(data)
    else if command == "QUIT_GAME" then QuitGame
    else Unrecognised
  }

  /** LOGIN and REGISTER act only when the data splits on ',' into exactly two
      fields (trailing empty fields dropped). */
  function Credentials(data: string): Option<(string, string)>
  {
    var parts := Split(data, ",");
    if |parts| == 2 then Some((parts[0], parts[1])) else None
  }

  /** The data of PRIVATE_MESSAGE: recipient before the first ':', text after. */
  function ChatRequest(data: string): (r: Option<(string, string)>)
    ensures r.Some? <==> ':' in data
    ensures r.Some? ==> data == r.value.0 + ":" + r.value.1 && ':' !in r.value.0
  {
    SplitFirstChar(data, ":");
    var parts := SplitFirst(data, ":");
    if |parts| == 2 then Some((parts[0], parts[1])) else None
  }

  // Lines the client sends.

  /** A request line: the command word, ':' and the data. */
  function Line(command: string, data: string): string
  {
    command + ":" + data
  }

  /** The server reads back the command word and the whole data of a line. */
  lemma ParseLine(command: string, data: string)
    requires ':' !in command
    ensures ParseCommand(Line(command, data)) == Dispatch(command, data)
  {
    FrameOf(command, data);
  }

  function LoginLine(user: string, password: string): string
  {
    Line("LOGIN", user + "," + password)
  }

  function RegisterLine(user: string, password: string): string
  {
    Line("REGISTER", user + "," + password)
  }

  function GameActionLine(idx: int): string
  {
    Line("GAME_ACTION", IntToString(idx))
  }

  function PrivateMessageLine(recipient: string, text: string): string
  {
    Line("PRIVATE_MESSAGE", recipient + ":" + text)
  }

  /** Credentials free of ',' with a non-empty password survive the trip
      through LOGIN: the server reads back exactly the user and password. */
  lemma LoginRoundTrip(user: string, password: string)
    requires ',' !in user && ',' !in password && password != ""
    ensures ParseCommand(LoginLine(user, password)) == Login(user + "," + password)
    ensures Credentials(user + "," + password) == Some((user, password))
  {
    ParseLine("LOGIN", user + "," + password);
    DispatchLogin(user + "," + password);
    SplitOfJoin([user, password], ",");
  }

  lemma RegisterRoundTrip(user: string, password: string)
    requires ',' !in user && ',' !in password && password != ""
    ensures ParseCommand(RegisterLine(user, password)) == Register(user + "," + password)
    ensures Credentials(user + "," + password) == Some((user, password))
  {
    ParseLine("REGISTER", user + "," + password);
    DispatchRegister(user + "," + password);
    SplitOfJoin([user, password], ",");
  }

  /** A password containing ',' passes every client check but gives three
      fields: the server ignores the request and sends no reply at all. */
  lemma CommaInPasswordIgnored(user: string, before: string, after: string)
    requires ',' !in user && ',' !in before && ',' !in after && after != ""
    ensures Credentials(user + "," + (before + "," + after)) == None
  {
    SplitOfJoin([user, before, after], ",");
    assert Join([user, before, after], ",") == user + "," + (before + "," + after) by {
      assert [user, before, after][1..] == [before, after];
      assert [before, after][1..] == [after];
      assert Join([before, after], ",") == before + "," + after;
      assert Join([user, before, after], ",") == user + "," + Join([before, after], ",");
    }
  }

  /** A grain index sent by the client reaches the session unchanged. */
  lemma GameActionRoundTrip(idx: int)
    requires IsInt32(idx)
    ensures ParseCommand(GameActionLine(idx)) == GameAction(IntToString(idx))
    ensures ParseInt(IntToString(idx)) == Some(idx)
  {
    ParseLine("GAME_ACTION", IntToString(idx));
    DispatchGameAction(IntToString(idx));
    ParseIntOfIntToString(idx);
  }

  /** A private message reaches the server with its recipient and its whole
      text, even when the text itself contains ':'. */
  lemma PrivateMessageRoundTrip(recipient: string, text: string)
    requires ':' !in recipient
    ensures ParseCommand(PrivateMessageLine(recipient, text)) == PrivateMessage(recipient + ":" + text)
    ensures ChatRequest(recipient + ":" + text) == Some((recipient, text))
  {
    ParseLine("PRIVATE_MESSAGE", recipient + ":" + text);
    DispatchPrivate(recipient + ":" + text);
    SplitFirstOf(recipient, ":", text);
  }

  /** The request words the switch has a case for. */
  const RequestWords: set<string> := {"LOGIN", "REGISTER", "GET_ONLINE_USERS", "INVITE", "ACCEPT_INVITATION",
    "REJECT_INVITATION", "GAME_ACTION", "GET_LEADERBOARD", "PRIVATE_MESSAGE", "QUIT_GAME"}

  /** The request word each command comes from. */
  function RequestWord(c: Command): string
  {
    match c
    case Login(_) => "LOGIN"
    case Register(_) => "REGISTER"
    case GetOnlineUsers => "GET_ONLINE_USERS"
    case Invite(_) => "INVITE"
    case AcceptInvitation(_) => "ACCEPT_INVITATION"
    case RejectInvitation(_) => "REJECT_INVITATION"
    case GameAction(_) => "GAME_ACTION"
    case GetLeaderboard => "GET_LEADERBOARD"
    case PrivateMessage(_) => "PRIVATE_MESSAGE"
    case QuitGame => "QUIT_GAME"
    case Unrecognised => ""
  }

  /** The data a command hands to its handler; the three requests without
      data have none. */
  function Payload(c: Command): Option<string>
  {
    match c
    case Login(d) => Some(d)
    case Register(d) => Some(d)
    case Invite(d) => Some(d)
    case AcceptInvitation(d) => Some(d)
    case RejectInvitation(d) => Some(d)
    case GameAction(d) => Some(d)
    case PrivateMessage(d) => Some(d)
    case _ => None
  }

  /** Dispatch routes exactly the ten request words, each to its own
      handler (so no two words share one), hands the whole data to the
      seven handlers that take data, and leaves every other word
      unrecognised. */
  lemma DispatchRoutes(command: string, data: string)
    ensures Dispatch(command, data) == Unrecognised <==> command !in RequestWords
    ensures command in RequestWords ==> RequestWord(Dispatch(command, data)) == command
    ensures Payload(Dispatch(command, data)).Some? ==> Payload(Dispatch(command, data)).value == data
    ensures Payload(Dispatch(command, data)).None? <==>
              command !in RequestWords || command == "GET_ONLINE_USERS" || command == "GET_LEADERBOARD"
              || command == "QUIT_GAME"
  {
  }

  lemma DispatchLogin(data: string)
    ensures Dispatch("LOGIN", data) == Login(data)
  {
  }

  lemma DispatchRegister(data: string)
    ensures Dispatch("REGISTER", data) == Register(data)
  {
  }

  lemma DispatchGameAction(data: string)
    ensures Dispatch("GAME_ACTION", data) == GameAction(data)
  {
  }

  lemma DispatchPrivate(data: string)
    ensures Dispatch("PRIVATE_MESSAGE", data) == PrivateMessage(data)
  {
  }

  // ---------------------------------------------------------------------------
  // Lines the server sends
  // ---------------------------------------------------------------------------

  /** One online user as buildOnlineUsersMessage sees it. */
  datatype Presence = Presence(name: string, score: int, busy: bool)

  /** A line the server writes to a connection, by kind and fields; Text
      gives its characters. */
  datatype Reply =
    | LoginSuccess(user: string)
    | LoginFailedInvalid
    | LoginFailedOnline
    | RegisterSuccess
    | RegisterFailed
    /** getLeaderboard's whole line, as the users table yields it. */
    | Leaderboard(line: string)
    | OnlineUsers(rows: seq<Presence>)
    | GameInvitation(inviter: Option<string>)
    | InvitationRejected(invitee: Option<string>)
    | IncomingMessage(sender: Option<string>, text: string)
    | RecipientOffline(recipient: string)
    | GameStarted(gameId: string, opponent: string, ricePositions: string)
    | GrainResult(idx: int, tag: string, score: int)
    | OpponentGrainClick(idx: int, tag: string)
    | OpponentScore(player: string, score: int)
    | BuffActivated(score: int)
    | DebuffActivated(score: int)
    | DebuffSuccess
    /** The outcome is the winner's name, DRAW, QUIT_WIN or QUIT_LOSS. */
    | GameEnded(outcome: string, score1: int, score2: int)
    | LobbyReady(lobbyId: string, host: string, players: seq<string>)
    | LobbyUpdate(lobbyId: string, host: string, players: seq<string>)

  /** The characters of each reply, as the string concatenations write them
      (a null name prints as "null"). */
  function Text(r: Reply): string
  {
    match r
    case LoginSuccess(user) => "LOGIN_SUCCESS:" + user
    case LoginFailedInvalid => "LOGIN_FAILED:Invalid credentials"
    case LoginFailedOnline => "LOGIN_FAILED:User already online"
    case RegisterSuccess => "REGISTER_SUCCESS"
    case RegisterFailed => "REGISTER_FAILED:Username already exists"
    case Leaderboard(line) => line
    case OnlineUsers(rows) => OnlineUsersLine(rows)
    case GameInvitation(inviter) => "GAME_INVITATION:" + OrNull(inviter)
    case InvitationRejected(invitee) => "INVITATION_REJECTED:" + OrNull(invitee)
    case IncomingMessage(sender, text) => "INCOMING_MESSAGE:" + OrNull(sender) + ":" + text
    case RecipientOffline(recipient) =>
      "SYSTEM_MESSAGE:Người dùng '" + recipient + "' không trực tuyến hoặc đã thoát."
    case GameStarted(gameId, opponent, rice) =>
      "GAME_STARTED:" + gameId + "," + opponent + "," + IntToString(GameDuration) + "," + rice
    case GrainResult(idx, tag, score) =>
      "GRAIN_RESULT:" + IntToString(idx) + "," + tag + "," + IntToString(score)
    case OpponentGrainClick(idx, tag) => "OPPONENT_GRAIN_CLICK:" + IntToString(idx) + "," + tag
    case OpponentScore(player, score) => "OPPONENT_SCORE:" + player + "," + IntToString(score)
    case BuffActivated(score) => "BUFF_ACTIVATED:+" + IntToString(score)
    case DebuffActivated(score) => "DEBUFF_ACTIVATED:-" + IntToString(score)
    case DebuffSuccess => "DEBUFF_SUCCESS:Đã giảm điểm đối thủ!"
    case GameEnded(outcome, score1, score2) =>
      "GAME_ENDED:" + outcome + "," + IntToString(score1) + "," + IntToString(score2)
    case LobbyReady(lobbyId, host, players) => "LOBBY_READY:" + lobbyId + ":" + host + ":" + Join(players, ",")
    case LobbyUpdate(lobbyId, host, players) => "LOBBY_UPDATE:" + lobbyId + ":" + host + ":" + Join(players, ",")
  }

  function StatusWord(busy: bool): string
  {
    if busy then "BUSY" else "FREE"
  }

  function PresenceRow(p: Presence): string
  {
    p.name + "," + IntToString(p.score) + "," + StatusWord(p.busy) + ";"
  }

  function Rows(ps: seq<Presence>): string
  {
    if |ps| == 0 then "" else Rows(ps[..|ps| - 1]) + PresenceRow(ps[|ps| - 1])
  }

  /** "ONLINE_USERS:" followed by one "name,score,STATUS;" row per user. */
  function OnlineUsersLine(ps: seq<Presence>): string
  {
    "ONLINE_USERS:" + Rows(ps)
  }

  // ---------------------------------------------------------------------------
  // Player statistics
  // ---------------------------------------------------------------------------

  /** A row of the users table. */
  datatype UserRow = UserRow(password: string, totalScore: int, gamesPlayed: int, gamesWon: int)

  /** One finished game as saveGameResult stores it. */
  datatype GameRecord = GameRecord(
    gameId: string, player1: string, player2: string, winner: string,
    score1: int, score2: int, duration: int)

  /** updatePlayerStats: the UPDATE touches only an existing row. */
  function Credit(users: map<string, UserRow>, name: string, won: bool, score: int): map<string, UserRow>
  {
    if name in users then
      var row := users[name];
      users[name := row.(totalScore := row.totalScore + score,
                         gamesPlayed := row.gamesPlayed + 1,
                         gamesWon := row.gamesWon + if won then 1 else 0)]
    else users
  }

  /** Crediting a name adds the score, one game played and one win when
      `won` to that row, keeps its password, and leaves every other row and
      the set of names alone; an unknown name changes nothing. */
  lemma CreditEffect(users: map<string, UserRow>, name: string, won: bool, score: int)
    ensures var r := Credit(users, name, won, score);
      && r.Keys == users.Keys
      && (forall u :: u in users && u != name ==> r[u] == users[u])
      && (name !in users ==> r == users)
      && (name in users ==>
            && r[name].totalScore == users[name].totalScore + score
            && r[name].gamesPlayed == users[name].gamesPlayed + 1
            && r[name].gamesWon == users[name].gamesWon + (if won then 1 else 0)
            && r[name].password == users[name].password)
  {
  }

  /** saveGameResult: player1 is credited, then player2; each one's won flag
      is whether the winner string equals that player's name. */
  function SaveStats(users: map<string, UserRow>, rec: GameRecord): map<string, UserRow>
  {
    Credit(Credit(users, rec.player1, rec.winner == rec.player1, rec.score1),
           rec.player2, rec.winner == rec.player2, rec.score2)
  }

  /** Each of two distinct registered players gets one more game and their own
      score; a player gains a win exactly when named winner, so at most one of
      the two gains a win, and DRAW credits nobody while neither player is
      named DRAW (see DrawNamedPlayerCredited and SelfGameCreditedTwice for
      the cases outside these conditions). */
  lemma SaveStatsEffect(users: map<string, UserRow>, rec: GameRecord)
    requires rec.player1 != rec.player2 && rec.player1 in users && rec.player2 in users
    ensures var after := SaveStats(users, rec);
      && after.Keys == users.Keys
      && after[rec.player1].gamesPlayed == users[rec.player1].gamesPlayed + 1
      && after[rec.player2].gamesPlayed == users[rec.player2].gamesPlayed + 1
      && after[rec.player1].totalScore == users[rec.player1].totalScore + rec.score1
      && after[rec.player2].totalScore == users[rec.player2].totalScore + rec.score2
      && (after[rec.player1].gamesWon == users[rec.player1].gamesWon + 1 <==> rec.winner == rec.player1)
      && (after[rec.player2].gamesWon == users[rec.player2].gamesWon + 1 <==> rec.winner == rec.player2)
      && (after[rec.player1].gamesWon + after[rec.player2].gamesWon
            <= users[rec.player1].gamesWon + users[rec.player2].gamesWon + 1)
      && (rec.winner == Draw && rec.player1 != Draw && rec.player2 != Draw ==>
            after[rec.player1].gamesWon == users[rec.player1].gamesWon
            && after[rec.player2].gamesWon == users[rec.player2].gamesWon)
  {
    var mid := Credit(users, rec.player1, rec.winner == rec.player1, rec.score1);
    CreditEffect(users, rec.player1, rec.winner == rec.player1, rec.score1);
    CreditEffect(mid, rec.player2, rec.winner == rec.player2, rec.score2);
  }

  /** A tie is stored with the winner DRAW, so a player registered under the
      name DRAW is credited a win for it. */
  lemma DrawNamedPlayerCredited(users: map<string, UserRow>, rec: GameRecord)
    requires rec.player1 == Draw && rec.winner == Draw && rec.player2 != Draw
    requires rec.player1 in users && rec.player2 in users
    ensures SaveStats(users, rec)[Draw].gamesWon == users[Draw].gamesWon + 1
  {
    CreditEffect(users, rec.player1, true, rec.score1);
    CreditEffect(Credit(users, rec.player1, true, rec.score1), rec.player2, false, rec.score2);
  }

  /** A game of a player against themself credits that row twice: two games,
      both scores, and two wins when the player is the winner. */
  lemma SelfGameCreditedTwice(users: map<string, UserRow>, rec: GameRecord)
    requires rec.player1 == rec.player2 && rec.player1 in users
    ensures var (p, after) := (rec.player1, SaveStats(users, rec));
      && after[p].gamesPlayed == users[p].gamesPlayed + 2
      && after[p].totalScore == users[p].totalScore + rec.score1 + rec.score2
      && after[p].gamesWon == users[p].gamesWon + (if rec.winner == p then 2 else 0)
  {
    var won := rec.winner == rec.player1;
    CreditEffect(users, rec.player1, won, rec.score1);
    CreditEffect(Credit(users, rec.player1, won, rec.score1), rec.player2, won, rec.score2);
  }
}
