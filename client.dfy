/** The game client's side of the line protocol: the checks a form passes
    before a request goes out, the invite guard, the decoders of the
    GAME_STARTED, ONLINE_USERS, GAME_ENDED, match history and leaderboard
    lines, and the client's score and item counters. The JavaFX screens are
    not modelled; what a handler shows is left out, what it records is kept. */
module Client {
  import opened Wire
  import opened MatchRules
  import opened Protocol

  // ---------------------------------------------------------------------------
  // Forms
  // ---------------------------------------------------------------------------

  /** The error alert a form shows instead of sending. */
  datatype FormError = MissingServer | MissingFields | UsernameLength | PasswordTooShort | PasswordMismatch

  /** What pressing a form's button does: an alert, or a request line. */
  datatype Submission = Refused(error: FormError) | Send(line: string)

  /** The login button: the server address is checked first, then both
      credentials; every field is trimmed. */
  function LoginSubmission(server: string, username: string, password: string): Submission
  {
    var (s, u, p) := (Trim(server), Trim(username), Trim(password));
    if s == "" then Refused(MissingServer)
    else if u == "" || p == "" then Refused(MissingFields)
    else Send(LoginLine(u, p))
  }

  /** A login goes out exactly when the three trimmed fields are filled, and
      the server reads back the trimmed user and password unless one of them
      holds ','. */
  lemma LoginSubmitted(server: string, username: string, password: string)
    ensures LoginSubmission(server, username, password).Send? <==>
      Trim(server) != "" && Trim(username) != "" && Trim(password) != ""
    ensures var (u, p) := (Trim(username), Trim(password));
      LoginSubmission(server, username, password).Send? && ',' !in u && ',' !in p ==>
        && ParseCommand(LoginSubmission(server, username, password).line) == Login(u + "," + p)
        && Credentials(u + "," + p) == Some((u, p))
  {
    var (u, p) := (Trim(username), Trim(password));
    if LoginSubmission(server, username, password).Send? && ',' !in u && ',' !in p {
      LoginRoundTrip(u, p);
    }
  }

  /** Every check of the registration form, on the trimmed fields. */
  predicate RegistrationAccepted(server: string, username: string, password: string, confirm: string)
  {
    var (s, u, p, c) := (Trim(server), Trim(username), Trim(password), Trim(confirm));
    && s != "" && u != "" && p != "" && c != ""
    && 3 <= |u| <= 20
    && |p| >= 6
    && p == c
  }

  /** The register button: the checks in the order the form makes them, the
      first failing one deciding the alert. */
  function RegisterSubmission(server: string, username: string, password: string, confirm: string): Submission
  {
    var (s, u, p, c) := (Trim(server), Trim(username), Trim(password), Trim(confirm));
    if s == "" then Refused(MissingServer)
    else if u == "" || p == "" || c == "" then Refused(MissingFields)
    else if |u| < 3 || |u| > 20 then Refused(UsernameLength)
    else if |p| < 6 then Refused(PasswordTooShort)
    else if p != c then Refused(PasswordMismatch)
    else Send(RegisterLine(u, p))
  }

  /** A registration goes out exactly when every check passes, and the server
      reads back the trimmed user and password unless one of them holds ','. */
  lemma RegisterSubmitted(server: string, username: string, password: string, confirm: string)
    ensures RegisterSubmission(server, username, password, confirm).Send? <==>
      RegistrationAccepted(server, username, password, confirm)
    ensures var (u, p) := (Trim(username), Trim(password));
      RegisterSubmission(server, username, password, confirm).Send? && ',' !in u && ',' !in p ==>
        && ParseCommand(RegisterSubmission(server, username, password, confirm).line) == Register(u + "," + p)
        && Credentials(u + "," + p) == Some((u, p))
  {
    var (u, p) := (Trim(username), Trim(password));
    if RegisterSubmission(server, username, password, confirm).Send? && ',' !in u && ',' !in p {
      RegisterRoundTrip(u, p);
    }
  }

  // ---------------------------------------------------------------------------
  // The invite guard
  // ---------------------------------------------------------------------------

  /** What choosing "invite" on an entry of the online list does. */
  datatype InviteChoice = NothingSelected | TargetBusy | TargetIsSelf | InviteSent(line: string) | InviteThrew

  /** The invite menu item: the name is the entry's text before " - "; a busy
      entry or one naming the current user is refused. An entry made only of
      " - " separators splits into nothing and the lookup of the name throws. */
  function InviteChoiceFor(selected: Option<string>, current: Option<string>): InviteChoice
  {
    if selected.None? then NothingSelected
    else
      var parts := Split(selected.value, " - ");
      if |parts| == 0 then InviteThrew
      else if Contains(selected.value, "(BUSY)") then TargetBusy
      else if Some(parts[0]) == current then TargetIsSelf
      else InviteSent(Line("INVITE", parts[0]))
  }

  /** An invitation goes out only for an entry that is not busy and does not
      name the current user, and the server reads it as an INVITE of exactly
      the entry's name. */
  lemma InviteGuard(selected: Option<string>, current: Option<string>)
    ensures InviteChoiceFor(selected, current).InviteSent? ==>
      && selected.Some? && !Contains(selected.value, "(BUSY)")
      && var target := Split(selected.value, " - ")[0];
         && Some(target) != current
         && ParseCommand(InviteChoiceFor(selected, current).line) == Invite(target)
    ensures selected.Some? && Contains(selected.value, "(BUSY)") ==>
      InviteChoiceFor(selected, current) in {TargetBusy, InviteThrew}
  {
    if InviteChoiceFor(selected, current).InviteSent? {
      ParseLine("INVITE", Split(selected.value, " - ")[0]);
    }
  }

  /** The list entry updateOnlineUsers shows for a user. */
  function DisplayText(name: string, score: int, status: string): string
  {
    name + " - Điểm: " + IntToString(score) + (if status == "BUSY" then " (BUSY)" else "")
  }

  /** A string contains each of its suffixes. */
  lemma {:induction false} ContainsSuffix(prefix: string, suffix: string)
    ensures Contains(prefix + suffix, suffix)
    decreases |prefix|
  {
    if |prefix| > 0 {
      ContainsSuffix(prefix[1..], suffix);
      assert (prefix + suffix)[1..] == prefix[1..] + suffix;
    } else {
      assert (prefix + suffix)[..|suffix|] == suffix;
    }
  }

  /** Choosing the entry of a busy user never sends an invitation. */
  lemma BusyEntryNotInvited(name: string, score: int, current: Option<string>)
    ensures !InviteChoiceFor(Some(DisplayText(name, score, "BUSY")), current).InviteSent?
  {
    ContainsSuffix(name + " - Điểm: " + IntToString(score), " (BUSY)");
    ContainsSuffix(name + " - Điểm: " + IntToString(score) + " ", "(BUSY)");
    assert name + " - Điểm: " + IntToString(score) + " (BUSY)" == name + " - Điểm: " + IntToString(score) + " " + "(BUSY)";
  }

  // ---------------------------------------------------------------------------
  // GAME_ENDED
  // ---------------------------------------------------------------------------

  /** How handleGameEnded reads the outcome field. */
  datatype EndView = QuitLoss | QuitWin | Victory | Draw | Quit | Defeat | EndThrew

  /** isGameCompleted: false only after the user's own quit. */
  predicate Completed(v: EndView)
  {
    v != QuitLoss && v != Quit
  }

  /** The outcome word compared in handleGameEnded's order: the quit words,
      then the user's own name, then DRAW and QUIT; anything else is a loss. */
  function OutcomeView(winner: string, current: Option<string>): EndView
  {
    if winner == "QUIT_LOSS" then QuitLoss
    else if winner == "QUIT_WIN" then QuitWin
    else if Some(winner) == current then Victory
    else if winner == "DRAW" then Draw
    else if winner == "QUIT" then Quit
    else Defeat
  }

  /** handleGameEnded: the outcome is the first ',' field of the data. */
  function ClassifyGameEnded(data: string, current: Option<string>): EndView
  {
    var parts := Split(data, ",");
    if |parts| == 0 then EndThrew else OutcomeView(parts[0], current)
  }

  /** The words of GAME_ENDED that are not player names. */
  predicate Reserved(name: string)
  {
    name in {"QUIT_LOSS", "QUIT_WIN", "DRAW", "QUIT"}
  }

  /** The client reads the outcome of the server's GAME_ENDED line back, and
      for a player whose name is not a reserved word: a win when the winner
      is that player, a draw on DRAW, a loss when the other player won; the
      quit lines give a loss that does not count as completed to the quitter
      and a win to the other player. */
  lemma EndedLineClassified(outcome: string, score1: int, score2: int, me: string)
    requires ',' !in outcome
    ensures Frame(Text(GameEnded(outcome, score1, score2))).0 == "GAME_ENDED"
    ensures var view := ClassifyGameEnded(Frame(Text(GameEnded(outcome, score1, score2))).1, Some(me));
      && (outcome == "QUIT_LOSS" ==> view == QuitLoss && !Completed(view))
      && (outcome == "QUIT_WIN" ==> view == QuitWin && Completed(view))
      && (!Reserved(me) ==>
            && (outcome == me ==> view == Victory)
            && (outcome == "DRAW" ==> view == Draw)
            && (!Reserved(outcome) && outcome != me ==> view == Defeat))
  {
    var (a, b) := (IntToString(score1), IntToString(score2));
    var data := outcome + "," + a + "," + b;
    assert Text(GameEnded(outcome, score1, score2)) == "GAME_ENDED" + ":" + data;
    FrameOf("GAME_ENDED", data);
    IntToStringIsPlain(score1, ',');
    IntToStringIsPlain(score2, ',');
    JoinThree(outcome, a, b);
    SplitOfJoin([outcome, a, b], ",");
  }

  // ---------------------------------------------------------------------------
  // Rice positions of GAME_STARTED
  // ---------------------------------------------------------------------------

  /** The integers among the trimmed pieces; the others are skipped. */
  function Integers(pieces: seq<string>): set<int>
  {
    set p | p in pieces && ParseInt(Trim(p)).Some? :: ParseInt(Trim(p)).value
  }

  /** The rice indices createGamePlayUI reads from the positions field: none
      when it is empty, otherwise the integers among its ':' pieces. */
  function RiceIndexes(positions: string): set<int>
  {
    if positions == "" then {} else Integers(Split(positions, ":"))
  }

  lemma IntegersStep(pieces: seq<string>, i: int)
    requires 0 <= i < |pieces|
    ensures Integers(pieces[..i + 1]) == Integers(pieces[..i])
      + (if ParseInt(Trim(pieces[i])).Some? then {ParseInt(Trim(pieces[i])).value} else {})
  {
    assert pieces[..i + 1] == pieces[..i] + [pieces[i]];
  }

  /** The parse loop of createGamePlayUI: every piece is trimmed and parsed,
      and a piece that is not an integer is skipped. */
  method DecodeRicePositions(positions: string) returns (indexes: set<int>)
    ensures indexes == RiceIndexes(positions)
  {
    indexes := {};
    if positions != "" {
      var pieces := Split(positions, ":");
      for i := 0 to |pieces|
        invariant indexes == Integers(pieces[..i])
      {
        IntegersStep(pieces, i);
        var n := ParseInt(Trim(pieces[i]));
        if n.Some? {
          indexes := indexes + {n.value};
        }
      }
      assert pieces[..|pieces|] == pieces;
    }
  }

  /** Decimal numerals of 32-bit integers parse back to those integers. */
  lemma NumeralsParse(xs: seq<int>)
    requires forall k :: 0 <= k < |xs| ==> IsInt32(xs[k])
    ensures Integers(Numerals(xs)) == set x | x in xs
  {
    var pieces := Numerals(xs);
    forall x ensures x in Integers(pieces) <==> x in xs {
      if x in xs {
        var k :| 0 <= k < |xs| && xs[k] == x;
        IntToStringIsPlain(x, ':');
        ParseIntOfIntToString(x);
        assert pieces[k] == IntToString(x);
      }
      if x in Integers(pieces) {
        var p :| p in pieces && ParseInt(Trim(p)).Some? && ParseInt(Trim(p)).value == x;
        var k :| 0 <= k < |pieces| && pieces[k] == p;
        IntToStringIsPlain(xs[k], ':');
        ParseIntOfIntToString(xs[k]);
      }
    }
  }

  /** Numerals joined by ':' split back into those numerals. */
  lemma NumeralsSplit(xs: seq<int>)
    requires |xs| > 0
    ensures Join(Numerals(xs), ":") != ""
    ensures Split(Join(Numerals(xs), ":"), ":") == Numerals(xs)
  {
    var pieces := Numerals(xs);
    forall k | 0 <= k < |pieces| ensures ':' !in pieces[k] {
      IntToStringIsPlain(xs[k], ':');
    }
    IntToStringIsPlain(xs[|xs| - 1], ':');
    SplitOfJoin(pieces, ":");
    IntToStringIsPlain(xs[0], ':');
  }

  /** The rice string startGame sends decodes to exactly the board's rice
      cells. */
  lemma RiceRoundTrip(grains: seq<GrainType>)
    requires |grains| <= IntMax
    ensures RiceIndexes(RiceString(grains)) == RiceCells(grains)
  {
    var cells := RiceList(grains, |grains|);
    RiceListFacts(grains, |grains|);
    RiceListCells(grains);
    if |cells| > 0 {
      NumeralsSplit(cells);
      NumeralsParse(cells);
    }
  }

  /** What handleGameStarted takes from a GAME_STARTED line. */
  datatype Start = Start(gameId: string, opponent: string, duration: int, rice: set<int>)

  /** handleGameStarted's reading of the data: id, opponent and duration are
      the first three ',' fields, the rice positions the fourth when there is
      one; None when a field is missing or the duration is not an integer. */
  function ReadGameStarted(data: string): Option<Start>
  {
    var parts := Split(data, ",");
    if |parts| < 3 then None
    else match ParseInt(parts[2])
      case None => None
      case Some(duration) => Some(Start(parts[0], parts[1], duration, RiceIndexes(if |parts| > 3 then parts[3] else "")))
  }

  /** The GAME_STARTED line startGame sends is read back as its id, the
      opponent, the game's duration and exactly the board's rice cells. */
  lemma GameStartedRoundTrip(gameId: string, opponent: string, grains: seq<GrainType>)
    requires ',' !in gameId && ',' !in opponent && |grains| <= IntMax
    ensures Frame(Text(GameStarted(gameId, opponent, RiceString(grains)))).0 == "GAME_STARTED"
    ensures ReadGameStarted(Frame(Text(GameStarted(gameId, opponent, RiceString(grains)))).1)
         == Some(Start(gameId, opponent, GameDuration, RiceCells(grains)))
  {
    var rice := RiceString(grains);
    StartedLine(gameId, opponent, rice);
    RiceStringPlain(grains);
    StartedData(gameId, opponent, rice);
    RiceRoundTrip(grains);
  }

  /** startGame's line frames as GAME_STARTED and its four fields. */
  lemma StartedLine(gameId: string, opponent: string, rice: string)
    ensures Frame(Text(GameStarted(gameId, opponent, rice)))
         == ("GAME_STARTED", gameId + "," + opponent + "," + IntToString(GameDuration) + "," + rice)
  {
    var data := gameId + "," + opponent + "," + IntToString(GameDuration) + "," + rice;
    assert Text(GameStarted(gameId, opponent, rice)) == "GAME_STARTED" + ":" + data;
    FrameOf("GAME_STARTED", data);
  }

  lemma StartedData(gameId: string, opponent: string, rice: string)
    requires ',' !in gameId && ',' !in opponent && ',' !in rice
    ensures ReadGameStarted(gameId + "," + opponent + "," + IntToString(GameDuration) + "," + rice)
         == Some(Start(gameId, opponent, GameDuration, RiceIndexes(rice)))
  {
    IntToStringIsPlain(GameDuration, ',');
    ParseIntOfIntToString(GameDuration);
    StartedFields(gameId, opponent, IntToString(GameDuration), rice);
  }

  /** The four ',' fields of GAME_STARTED data; an empty last one is dropped
      by the split. */
  lemma StartedFields(gameId: string, opponent: string, duration: string, rice: string)
    requires ',' !in gameId && ',' !in opponent && ',' !in duration && ',' !in rice && duration != ""
    ensures Split(gameId + "," + opponent + "," + duration + "," + rice, ",") ==
      if rice == "" then [gameId, opponent, duration] else [gameId, opponent, duration, rice]
  {
    var parts := [gameId, opponent, duration, rice];
    JoinFour(gameId, opponent, duration, rice);
    if rice == "" {
      PiecesOfJoin(parts, ",");
      assert parts[..3] == [gameId, opponent, duration];
      assert DropTrailingEmpty([gameId, opponent, duration]) == [gameId, opponent, duration];
    } else {
      SplitOfJoin(parts, ",");
    }
  }

  lemma JoinThree(a: string, b: string, c: string)
    ensures Join([a, b, c], ",") == a + "," + b + "," + c
  {
    assert [a, b, c][1..] == [b, c];
    assert [b, c][1..] == [c];
    assert Join([b, c], ",") == b + "," + c;
    assert a + "," + (b + "," + c) == a + "," + b + "," + c;
  }

  lemma JoinFour(a: string, b: string, c: string, d: string)
    ensures Join([a, b, c, d], ",") == a + "," + b + "," + c + "," + d
  {
    assert [a, b, c, d][1..] == [b, c, d];
    JoinThree(b, c, d);
    assert a + "," + (b + "," + c + "," + d) == a + "," + b + "," + c + "," + d;
  }

  /** The rice string holds no ','. */
  lemma RiceStringPlain(grains: seq<GrainType>)
    ensures ',' !in RiceString(grains)
  {
    var pieces := Numerals(RiceList(grains, |grains|));
    forall k | 0 <= k < |pieces| ensures ',' !in pieces[k] {
      IntToStringIsPlain(RiceList(grains, |grains|)[k], ',');
    }
    JoinPlain(pieces, ":", ',');
  }

  /** A join holds a character only if a part or the separator holds it. */
  lemma {:induction false} JoinPlain(parts: seq<string>, sep: string, c: char)
    requires c !in sep && forall k :: 0 <= k < |parts| ==> c !in parts[k]
    ensures c !in Join(parts, sep)
    decreases |parts|
  {
    if |parts| > 1 {
      JoinPlain(parts[1..], sep, c);
    }
  }

  // ---------------------------------------------------------------------------
  // ONLINE_USERS
  // ---------------------------------------------------------------------------

  /** An entry of the client's table of online users. */
  datatype UserInfo = UserInfo(username: string, totalScore: int, status: string)

  /** The table of online users and the entries of the list shown, and
      whether reading a score threw part way. */
  datatype Listing = Listing(users: map<string, UserInfo>, shown: seq<string>, threw: bool)

  /** One row of updateOnlineUsers: blank rows and rows of fewer than three
      ',' fields are skipped; the score must parse; the current user is kept
      in the table but not shown. */
  function ListRow(l: Listing, row: string, current: Option<string>): Listing
  {
    if Trim(row) == "" then l
    else
      var parts := Split(row, ",");
      if |parts| < 3 then l
      else match ParseInt(parts[1])
        case None => l.(threw := true)
        case Some(score) =>
          var name := parts[0];
          Listing(l.users[name := UserInfo(name, score, parts[2])],
                  if Some(name) == current then l.shown else l.shown + [DisplayText(name, score, parts[2])],
                  false)
  }

  /** The rows read in order, stopping at the first that throws. */
  function ListRows(rows: seq<string>, current: Option<string>): Listing
  {
    if |rows| == 0 then Listing(map[], [], false)
    else
      var l := ListRows(rows[..|rows| - 1], current);
      if l.threw then l else ListRow(l, rows[|rows| - 1], current)
  }

  /** The listing the data of an ONLINE_USERS line yields. */
  function OnlineListing(data: string, current: Option<string>): Listing
  {
    if data == "" then Listing(map[], [], false) else ListRows(Split(data, ";"), current)
  }

  /** The server's row of a user without its terminating ';'. */
  function RowFields(p: Presence): string
  {
    p.name + "," + IntToString(p.score) + "," + StatusWord(p.busy)
  }

  function AllRowFields(ps: seq<Presence>): seq<string>
  {
    seq(|ps|, k requires 0 <= k < |ps| => RowFields(ps[k]))
  }

  /** The users the server lists, as the client's table: a later row for the
      same name replaces an earlier one. */
  function Directory(ps: seq<Presence>): map<string, UserInfo>
  {
    if |ps| == 0 then map[]
    else
      var p := ps[|ps| - 1];
      Directory(ps[..|ps| - 1])[p.name := UserInfo(p.name, p.score, StatusWord(p.busy))]
  }

  /** The list entries of the users other than the current one, in order. */
  function Shown(ps: seq<Presence>, current: Option<string>): seq<string>
  {
    if |ps| == 0 then []
    else
      var p := ps[|ps| - 1];
      Shown(ps[..|ps| - 1], current)
        + (if Some(p.name) == current then [] else [DisplayText(p.name, p.score, StatusWord(p.busy))])
  }

  /** A name the presence row can carry without breaking its fields. */
  predicate Listable(p: Presence)
  {
    ',' !in p.name && ';' !in p.name && IsInt32(p.score)
  }

  lemma {:induction false} RowsTerminated(ps: seq<Presence>)
    ensures Rows(ps) == Terminated(AllRowFields(ps), ";")
    decreases |ps|
  {
    if |ps| > 0 {
      RowsTerminated(ps[..|ps| - 1]);
      assert AllRowFields(ps)[..|ps| - 1] == AllRowFields(ps[..|ps| - 1]);
    }
  }

  lemma RowFieldsPlain(p: Presence)
    requires Listable(p)
    ensures ';' !in RowFields(p) && RowFields(p) != ""
  {
    IntToStringIsPlain(p.score, ';');
    assert ';' !in StatusWord(p.busy);
  }

  /** The rows are the users' fields joined by ';' with a final empty piece. */
  lemma RowsJoin(ps: seq<Presence>)
    requires |ps| > 0
    ensures Rows(ps) == Join(AllRowFields(ps) + [""], ";")
  {
    RowsTerminated(ps);
    TerminatedIsJoin(AllRowFields(ps), ";");
    JoinSnoc(AllRowFields(ps), "", ";");
  }

  lemma PiecesPlain(ps: seq<Presence>)
    requires forall k :: 0 <= k < |ps| ==> Listable(ps[k])
    ensures forall k :: 0 <= k < |AllRowFields(ps) + [""]| ==> ';' !in (AllRowFields(ps) + [""])[k]
  {
    var pieces := AllRowFields(ps) + [""];
    forall k | 0 <= k < |pieces| ensures ';' !in pieces[k] {
      if k < |ps| {
        RowFieldsPlain(ps[k]);
      }
    }
  }

  lemma DropFinalEmpty(fields: seq<string>)
    requires |fields| > 0 && fields[|fields| - 1] != ""
    ensures DropTrailingEmpty(fields + [""]) == fields
  {
    assert (fields + [""])[..|fields|] == fields;
  }

  /** The rows of ONLINE_USERS data split back into one piece per user. */
  lemma RowsSplit(ps: seq<Presence>)
    requires |ps| > 0 && forall k :: 0 <= k < |ps| ==> Listable(ps[k])
    ensures Split(Rows(ps), ";") == AllRowFields(ps)
  {
    RowsJoin(ps);
    PiecesPlain(ps);
    PiecesOfJoin(AllRowFields(ps) + [""], ";");
    RowFieldsPlain(ps[|ps| - 1]);
    DropFinalEmpty(AllRowFields(ps));
  }

  /** A user's row is read back as its name, score and status word. */
  lemma RowRead(p: Presence)
    requires Listable(p)
    ensures Trim(RowFields(p)) != ""
    ensures Split(RowFields(p), ",") == [p.name, IntToString(p.score), StatusWord(p.busy)]
    ensures ParseInt(IntToString(p.score)) == Some(p.score)
  {
    var (a, b) := (IntToString(p.score), StatusWord(p.busy));
    IntToStringIsPlain(p.score, ',');
    ParseIntOfIntToString(p.score);
    JoinThree(p.name, a, b);
    SplitOfJoin([p.name, a, b], ",");
    TrimBlank(RowFields(p));
    assert RowFields(p)[|p.name|] == ',';
  }

  lemma {:induction false} ListRowsOfFields(ps: seq<Presence>, current: Option<string>)
    requires forall k :: 0 <= k < |ps| ==> Listable(ps[k])
    ensures ListRows(AllRowFields(ps), current) == Listing(Directory(ps), Shown(ps, current), false)
    decreases |ps|
  {
    if |ps| > 0 {
      ListRowsOfFields(ps[..|ps| - 1], current);
      assert AllRowFields(ps)[..|ps| - 1] == AllRowFields(ps[..|ps| - 1]);
      RowRead(ps[|ps| - 1]);
    }
  }

  /** The ONLINE_USERS line broadcastOnlineUsers sends gives the client a
      table of exactly the listed users with their scores and status words,
      and shows every listed user but the current one, in order. */
  lemma OnlineUsersRoundTrip(ps: seq<Presence>, current: Option<string>)
    requires forall k :: 0 <= k < |ps| ==> Listable(ps[k])
    ensures Frame(Text(OnlineUsers(ps))) == ("ONLINE_USERS", Rows(ps))
    ensures OnlineListing(Rows(ps), current) == Listing(Directory(ps), Shown(ps, current), false)
  {
    assert Text(OnlineUsers(ps)) == "ONLINE_USERS" + ":" + Rows(ps);
    FrameOf("ONLINE_USERS", Rows(ps));
    if |ps| > 0 {
      RowsSplit(ps);
      ListRowsOfFields(ps, current);
    }
  }

  /** The table holds exactly the listed names, and a name is shown at most
      as often as it is listed. */
  lemma {:induction false} DirectoryNames(ps: seq<Presence>, current: Option<string>)
    ensures forall n :: n in Directory(ps) <==> exists k :: 0 <= k < |ps| && ps[k].name == n
    ensures |Shown(ps, current)| <= |ps|
    decreases |ps|
  {
    if |ps| > 0 {
      DirectoryNames(ps[..|ps| - 1], current);
      var init := ps[..|ps| - 1];
      forall n ensures n in Directory(ps) <==> exists k :: 0 <= k < |ps| && ps[k].name == n {
        if n in Directory(init) {
          var k :| 0 <= k < |init| && init[k].name == n;
          assert ps[k].name == n;
        }
        if exists k :: 0 <= k < |ps| && ps[k].name == n {
          var k :| 0 <= k < |ps| && ps[k].name == n;
          if k < |init| {
            assert init[k].name == n;
          }
        }
      }
    }
  }

  // ---------------------------------------------------------------------------
  // Score and item messages
  // ---------------------------------------------------------------------------

  /** A GRAIN_RESULT as handleGrainResult reads it: unreadable (a missing
      field or a score that does not parse throws before anything changes),
      a cell outside the grid of TotalGrains cells (the score is taken, then
      the grid lookup throws), or a cell, its tag and the new score. */
  datatype GrainView = GrainUnread | GrainOffGrid(score: int) | GrainSeen(index: int, tag: string, score: int)

  function ReadGrainResult(data: string): GrainView
  {
    var parts := Split(data, ",");
    if |parts| == 0 then GrainUnread
    else match ParseInt(parts[0])
      case None => GrainUnread
      case Some(index) =>
        if |parts| < 3 then GrainUnread
        else match ParseInt(parts[2])
          case None => GrainUnread
          case Some(score) =>
            if 0 <= index < TotalGrains then GrainSeen(index, parts[1], score) else GrainOffGrid(score)
  }

  /** The item a grain result puts in the inventory. */
  datatype Item = NoItem | BuffItem | DebuffItem

  /** handleGrainResult's switch on the tag: SCORE_BUFF adds a buff,
      SCORE_DEBUFF a debuff, every other tag nothing. */
  function ItemOf(tag: string): Item
  {
    if tag == "SCORE_BUFF" then BuffItem else if tag == "SCORE_DEBUFF" then DebuffItem else NoItem
  }

  function HasSuffix(s: string, suffix: string): bool
  {
    |suffix| <= |s| && s[|s| - |suffix|..] == suffix
  }

  /** The server's GRAIN_RESULT for a cell of the grid is read back as that
      cell, its tag and the new score. */
  lemma GrainResultRoundTrip(index: int, tag: string, score: int)
    requires 0 <= index < TotalGrains && ',' !in tag && IsInt32(score)
    ensures Frame(Text(GrainResult(index, tag, score)))
         == ("GRAIN_RESULT", IntToString(index) + "," + tag + "," + IntToString(score))
    ensures ReadGrainResult(IntToString(index) + "," + tag + "," + IntToString(score)) == GrainSeen(index, tag, score)
  {
    var data := IntToString(index) + "," + tag + "," + IntToString(score);
    assert Text(GrainResult(index, tag, score)) == "GRAIN_RESULT" + ":" + data;
    FrameOf("GRAIN_RESULT", data);
    GrainFields(index, tag, score);
  }

  lemma GrainFields(index: int, tag: string, score: int)
    requires 0 <= index < TotalGrains && ',' !in tag && IsInt32(score)
    ensures ReadGrainResult(IntToString(index) + "," + tag + "," + IntToString(score)) == GrainSeen(index, tag, score)
  {
    var (a, c) := (IntToString(index), IntToString(score));
    IntToStringIsPlain(index, ',');
    IntToStringIsPlain(score, ',');
    ParseIntOfIntToString(index);
    ParseIntOfIntToString(score);
    JoinThree(a, tag, c);
    SplitOfJoin([a, tag, c], ",");
  }

  /** An OPPONENT_SCORE as handleOpponentScore reads it: the player and the
      score, or None when a field is missing or the score does not parse. */
  function ReadOpponentScore(data: string): Option<(string, int)>
  {
    var parts := Split(data, ",");
    if |parts| < 2 then None
    else match ParseInt(parts[1])
      case None => None
      case Some(score) => Some((parts[0], score))
  }

  /** The server's OPPONENT_SCORE is read back as its player and score. */
  lemma OpponentScoreRoundTrip(player: string, score: int)
    requires ',' !in player && IsInt32(score)
    ensures Frame(Text(OpponentScore(player, score))).0 == "OPPONENT_SCORE"
    ensures ReadOpponentScore(Frame(Text(OpponentScore(player, score))).1) == Some((player, score))
  {
    var c := IntToString(score);
    assert Text(OpponentScore(player, score)) == "OPPONENT_SCORE" + ":" + (player + "," + c);
    FrameOf("OPPONENT_SCORE", player + "," + c);
    IntToStringIsPlain(score, ',');
    ParseIntOfIntToString(score);
    assert Join([player, c], ",") == player + "," + c by { assert [player, c][1..] == [c]; }
    SplitOfJoin([player, c], ",");
  }

  /** BUFF_ACTIVATED and DEBUFF_ACTIVATED data: the text before the first ':'
      must be empty of fields (an all-':' text throws), start with the sign
      (otherwise the line is ignored) and carry an integer after it. */
  datatype SignedView = SignedUnread | Unsigned | SignedScore(score: int)

  function ReadSigned(data: string, sign: string): SignedView
  {
    var parts := Split(data, ":");
    if |parts| == 0 then SignedUnread
    else if !StartsWith(parts[0], sign) then Unsigned
    else match ParseInt(parts[0][|sign|..])
      case None => SignedUnread
      case Some(score) => SignedScore(score)
  }

  /** A sign followed by a numeral is read back as that number. */
  lemma SignedRoundTrip(sign: string, score: int)
    requires |sign| == 1 && sign[0] != ':' && IsInt32(score)
    ensures ReadSigned(sign + IntToString(score), sign) == SignedScore(score)
  {
    var text := sign + IntToString(score);
    IntToStringIsPlain(score, ':');
    PiecesSingle(text, ":");
    ParseIntOfIntToString(score);
    assert text[|sign|..] == IntToString(score);
    assert text[..|sign|] == sign;
  }

  /** The server's BUFF_ACTIVATED and DEBUFF_ACTIVATED lines are read back as
      the new score. */
  lemma ActivatedRoundTrip(score: int)
    requires IsInt32(score)
    ensures Frame(Text(BuffActivated(score))) == ("BUFF_ACTIVATED", "+" + IntToString(score))
    ensures Frame(Text(DebuffActivated(score))) == ("DEBUFF_ACTIVATED", "-" + IntToString(score))
    ensures ReadSigned("+" + IntToString(score), "+") == SignedScore(score)
    ensures ReadSigned("-" + IntToString(score), "-") == SignedScore(score)
  {
    assert Text(BuffActivated(score)) == "BUFF_ACTIVATED" + ":" + ("+" + IntToString(score));
    assert Text(DebuffActivated(score)) == "DEBUFF_ACTIVATED" + ":" + ("-" + IntToString(score));
    FrameOf("BUFF_ACTIVATED", "+" + IntToString(score));
    FrameOf("DEBUFF_ACTIVATED", "-" + IntToString(score));
    SignedRoundTrip("+", score);
    SignedRoundTrip("-", score);
  }

  /** A grain click the client sends is read by the server as a game action
      on that cell. */
  lemma ClickRoundTrip(index: int)
    requires 0 <= index < TotalGrains
    ensures ParseCommand(Line("GAME_ACTION", IntToString(index))) == GameAction(IntToString(index))
    ensures ParseInt(IntToString(index)) == Some(index)
  {
    ParseLine("GAME_ACTION", IntToString(index));
    ParseIntOfIntToString(index);
  }

  // ---------------------------------------------------------------------------
  // The client
  // ---------------------------------------------------------------------------

  /** The reply to an invitation dialog. */
  function InvitationAnswer(inviter: string, accept: bool): string
  {
    Line(if accept then "ACCEPT_INVITATION" else "REJECT_INVITATION", inviter)
  }

  /** The server reads the answer as an acceptance or a refusal naming the
      inviter. */
  lemma InvitationAnswerRoundTrip(inviter: string, accept: bool)
    ensures ParseCommand(InvitationAnswer(inviter, accept))
         == if accept then AcceptInvitation(inviter) else RejectInvitation(inviter)
  {
    if accept {
      ParseLine("ACCEPT_INVITATION", inviter);
    } else {
      ParseLine("REJECT_INVITATION", inviter);
    }
  }

  /** The item requests of the use buttons reach the server as lines its
      dispatch does not recognise. */
  lemma ItemRequestsUnrecognised(line: string)
    requires line == "USE_BUFF" || line == "USE_DEBUFF"
    ensures ParseCommand(line) == Unrecognised
  {
    assert ':' !in line;
    UnframedWord(line);
  }

  /** A line without ':' is read as a command word with no data. */
  lemma UnframedWord(line: string)
    requires ':' !in line
    ensures ParseCommand(line) == Dispatch(line, "")
  {
    assert Frame(line) == (line, "");
  }

  // ---------------------------------------------------------------------------
  // The client as a whole: processServerMessage on its state
  // ---------------------------------------------------------------------------

  /** Everything a GameClient holds that its handlers read and write. */
  datatype ClientState = ClientState(
    username: Option<string>, gameId: Option<string>, opponent: Option<string>, lobbyId: Option<string>,
    score: int, buffs: int, debuffs: int, rice: set<int>,
    users: map<string, UserInfo>, shown: seq<string>, listReady: bool,
    connected: bool, open: bool, sent: seq<string>)

  /** The handlers of processServerMessage's switch. OnAlert stands for the
      words that only show an alert (LOGIN_FAILED, REGISTER_FAILED,
      INVITATION_REJECTED, SYSTEM_MESSAGE, LOBBY_PLAYER_LEFT); OnOther for
      every word the switch has no case for. */
  datatype ServerWord =
    | OnLoginSuccess | OnRegisterSuccess | OnOnlineUsers | OnInvitation | OnGameStarted | OnGrainResult
    | OnOpponentScore | OnOpponentClick | OnBuffActivated | OnDebuffSuccess | OnDebuffActivated | OnGameEnded
    | OnIncomingMessage | OnLeaderboard | OnMatchHistory | OnLobbyReady | OnLobbyClosed | OnLobbyUpdate
    | OnAlert | OnOther

  /** The switch of processServerMessage. */
  function WordOf(command: string): ServerWord
  {
    if command == "LOGIN_SUCCESS" then OnLoginSuccess
    else if command == "LOGIN_FAILED" || command == "REGISTER_FAILED" then OnAlert
    else if command == "REGISTER_SUCCESS" then OnRegisterSuccess
    else if command == "ONLINE_USERS" then OnOnlineUsers
    else if command == "GAME_INVITATION" then OnInvitation
    else if command == "INVITATION_REJECTED" then OnAlert
    else if command == "GAME_STARTED" then OnGameStarted
    else if command == "GRAIN_RESULT" then OnGrainResult
    else if command == "OPPONENT_SCORE" then OnOpponentScore
    else if command == "OPPONENT_GRAIN_CLICK" then OnOpponentClick
    else if command == "BUFF_ACTIVATED" then OnBuffActivated
    else if command == "DEBUFF_SUCCESS" then OnDebuffSuccess
    else if command == "DEBUFF_ACTIVATED" then OnDebuffActivated
    else if command == "GAME_ENDED" then OnGameEnded
    else if command == "INCOMING_MESSAGE" then OnIncomingMessage
    else if command == "SYSTEM_MESSAGE" then OnAlert
    else if command == "LEADERBOARD" then OnLeaderboard
    else if command == "MATCH_HISTORY" then OnMatchHistory
    else if command == "LOBBY_READY" then OnLobbyReady
    else if command == "LOBBY_CLOSED" then OnLobbyClosed
    else if command == "LOBBY_PLAYER_LEFT" then OnAlert
    else if command == "LOBBY_UPDATE" then OnLobbyUpdate
    else OnOther
  }

  /** The word of each handler that has exactly one. */
  function WordText(w: ServerWord): string
  {
    match w
    case OnLoginSuccess => "LOGIN_SUCCESS"
    case OnRegisterSuccess => "REGISTER_SUCCESS"
    case OnOnlineUsers => "ONLINE_USERS"
    case OnInvitation => "GAME_INVITATION"
    case OnGameStarted => "GAME_STARTED"
    case OnGrainResult => "GRAIN_RESULT"
    case OnOpponentScore => "OPPONENT_SCORE"
    case OnOpponentClick => "OPPONENT_GRAIN_CLICK"
    case OnBuffActivated => "BUFF_ACTIVATED"
    case OnDebuffSuccess => "DEBUFF_SUCCESS"
    case OnDebuffActivated => "DEBUFF_ACTIVATED"
    case OnGameEnded => "GAME_ENDED"
    case OnIncomingMessage => "INCOMING_MESSAGE"
    case OnLeaderboard => "LEADERBOARD"
    case OnMatchHistory => "MATCH_HISTORY"
    case OnLobbyReady => "LOBBY_READY"
    case OnLobbyClosed => "LOBBY_CLOSED"
    case OnLobbyUpdate => "LOBBY_UPDATE"
    case OnAlert => ""
    case OnOther => ""
  }

  /** The words the switch has a case for. */
  const ServerWords: set<string> := {
    "LOGIN_SUCCESS", "LOGIN_FAILED", "REGISTER_FAILED", "REGISTER_SUCCESS", "ONLINE_USERS", "GAME_INVITATION",
    "INVITATION_REJECTED", "GAME_STARTED", "GRAIN_RESULT", "OPPONENT_SCORE", "OPPONENT_GRAIN_CLICK",
    "BUFF_ACTIVATED", "DEBUFF_SUCCESS", "DEBUFF_ACTIVATED", "GAME_ENDED", "INCOMING_MESSAGE", "SYSTEM_MESSAGE",
    "LEADERBOARD", "MATCH_HISTORY", "LOBBY_READY", "LOBBY_CLOSED", "LOBBY_PLAYER_LEFT", "LOBBY_UPDATE"}

  /** The switch has a case for exactly the server's words. */
  lemma WordOfRoutes(command: string)
    ensures WordOf(command) == OnOther <==> command !in ServerWords
  {
  }

  /** Each handler with a word of its own is selected by that word, so no
      two handlers share a word. */
  lemma WordTextSelects(w: ServerWord)
    requires w != OnAlert && w != OnOther
    ensures WordText(w) in ServerWords && WordOf(WordText(w)) == w
  {
  }

  /** `data.split(":", 3)` read as lobby id, host and player list: None when
      there are fewer than three fields (the index then throws). */
  function LobbyFields(data: string): Option<(string, string, string)>
  {
    var first := SplitFirst(data, ":");
    if |first| < 2 then None
    else
      var second := SplitFirst(first[1], ":");
      if |second| < 2 then None else Some((first[0], second[0], second[1]))
  }

  /** handleOpponentGrainClick reads an index and a type and looks the index
      up among the 100 grains of the grid; false when any of these throws. */
  predicate OpponentClickRead(data: string)
  {
    var parts := Split(data, ",");
    |parts| >= 2 && ParseInt(parts[0]).Some? && 0 <= ParseInt(parts[0]).value < TotalGrains
  }

  /** sendMessage: the line is written only while a writer exists. */
  function Write(s: ClientState, line: string): ClientState
  {
    if s.connected then s.(sent := s.sent + [line]) else s
  }

  /** backToMainMenu: no game and no opponent, score 0, a new empty list,
      and the list requested again. */
  function MainMenu(s: ClientState): ClientState
  {
    Write(s.(gameId := None, opponent := None, score := 0, shown := [], listReady := true), "GET_ONLINE_USERS")
  }

  /** The words whose handlers touch the account, presence and invitation. */
  const AccountWords: set<ServerWord> := {OnLoginSuccess, OnRegisterSuccess, OnOnlineUsers, OnInvitation}
  /** The words that start and end a match. */
  const PlayWords: set<ServerWord> := {OnGameStarted, OnGameEnded}
  /** The words that move the score and the items during a match. */
  const ScoreWords: set<ServerWord> :=
    {OnGrainResult, OnOpponentScore, OnBuffActivated, OnDebuffSuccess, OnDebuffActivated}

  /** The client after a server line, whether the handler threw, and how a
      GAME_ENDED line was read. */
  datatype Receipt = Receipt(next: ClientState, thrown: bool, ended: Option<EndView>)

  /** processServerMessage on the client's state: each handler's effect as
      its method states it. */
  function Receive(s: ClientState, message: string, accept: bool): Receipt
  {
    var (command, data) := Frame(message);
    React(s, WordOf(command), data, accept)
  }

  /** The effect of one handler on the data of its line. */
  function React(s: ClientState, w: ServerWord, data: string, accept: bool): Receipt
  {
    match w
    case OnLoginSuccess =>
      Receipt(Write(s.(username := Some(data), shown := [], listReady := true), "GET_ONLINE_USERS"), false, None)
    case OnRegisterSuccess => Receipt(s.(open := false), false, None)
    case OnOnlineUsers => ListedUsers(s, data)
    case OnInvitation => Receipt(Write(s, InvitationAnswer(data, accept)), false, None)
    case OnGameStarted => StartedGame(s, data)
    case OnGrainResult => GrainScored(s, data)
    case OnOpponentScore => OpponentScored(s, data)
    case OnOpponentClick => Receipt(s, !OpponentClickRead(data), None)
    case OnBuffActivated => Signed(s, data, true)
    case OnDebuffSuccess => Receipt(s.(debuffs := s.debuffs - 1), false, None)
    case OnDebuffActivated => Signed(s, data, false)
    case OnGameEnded => EndedGame(s, data)
    case OnIncomingMessage => Receipt(s, ChatRequest(data).None?, None)
    case OnLeaderboard => Receipt(s, Ranking(data).threw, None)
    case OnMatchHistory => Receipt(s, History(data).threw, None)
    case OnLobbyReady =>
      var f := LobbyFields(data);
      Receipt(if f.Some? then s.(lobbyId := Some(f.value.0)) else s, f.None?, None)
    case OnLobbyClosed => Receipt(MainMenu(s.(lobbyId := None)), false, None)
    case OnLobbyUpdate => Receipt(s, LobbyFields(data).None?, None)
    case OnAlert => Receipt(s, false, None)
    case OnOther => Receipt(s, false, None)
  }

  /** ONLINE_USERS: ignored before the main screen exists; otherwise the
      table and the list are the decoded listing. */
  function ListedUsers(s: ClientState, data: string): Receipt
  {
    if !s.listReady then Receipt(s, false, None)
    else
      var l := OnlineListing(data, s.username);
      Receipt(s.(users := l.users, shown := l.shown), l.threw, None)
  }

  /** GAME_STARTED: id and opponent as far as they are read; a complete line
      resets the items and records the rice cells. */
  function StartedGame(s: ClientState, data: string): Receipt
  {
    var parts := Split(data, ",");
    var named := s.(gameId := if |parts| > 0 then Some(parts[0]) else s.gameId,
                    opponent := if |parts| > 1 then Some(parts[1]) else s.opponent);
    var start := ReadGameStarted(data);
    if start.None? then Receipt(named, true, None)
    else Receipt(named.(buffs := 0, debuffs := 0, rice := start.value.rice), false, None)
  }

  /** StartedGame field by field, as handleGameStarted assigns them. */
  lemma StartedGameShape(s: ClientState, data: string)
    ensures var parts := Split(data, ",");
      var read := |parts| >= 3 && ParseInt(parts[2]).Some?;
      var named := s.(gameId := if |parts| > 0 then Some(parts[0]) else s.gameId,
                      opponent := if |parts| > 1 then Some(parts[1]) else s.opponent);
      StartedGame(s, data)
        == if read then Receipt(named.(buffs := 0, debuffs := 0, rice := RiceIndexes(if |parts| > 3 then parts[3] else "")), false, None)
           else Receipt(named, true, None)
  {
  }

  /** GRAIN_RESULT: the score of any readable line, and the item of a grid
      cell's tag. */
  function GrainScored(s: ClientState, data: string): Receipt
  {
    var v := ReadGrainResult(data);
    var item := if v.GrainSeen? then ItemOf(v.tag) else NoItem;
    Receipt(s.(score := if v.GrainUnread? then s.score else v.score,
               buffs := s.buffs + (if item == BuffItem then 1 else 0),
               debuffs := s.debuffs + (if item == DebuffItem then 1 else 0)), !v.GrainSeen?, None)
  }

  /** OPPONENT_SCORE: a score naming the user replaces the user's score. */
  function OpponentScored(s: ClientState, data: string): Receipt
  {
    var v := ReadOpponentScore(data);
    var mine := v.Some? && Some(v.value.0) == s.username;
    Receipt(s.(score := if mine then v.value.1 else s.score), v.None?, None)
  }

  /** BUFF_ACTIVATED (+n, one buff used up) and DEBUFF_ACTIVATED (-n). */
  function Signed(s: ClientState, data: string, isBuff: bool): Receipt
  {
    var v := ReadSigned(data, if isBuff then "+" else "-");
    var t := if isBuff then s.(buffs := s.buffs - 1) else s;
    Receipt(if v.SignedScore? then t.(score := v.score) else s, v.SignedUnread?, None)
  }

  /** GAME_ENDED: a readable outcome leads back to the main menu. */
  function EndedGame(s: ClientState, data: string): Receipt
  {
    var view := ClassifyGameEnded(data, s.username);
    Receipt(if view == EndThrew then s else MainMenu(s), view == EndThrew, Some(view))
  }

  /** A word the switch has no case for leaves the client as it was. */
  lemma UnknownWordIgnored(s: ClientState, message: string, accept: bool)
    requires Frame(message).0 !in ServerWords
    ensures Receive(s, message, accept) == Receipt(s, false, None)
  {
    WordOfRoutes(Frame(message).0);
  }

  /** The alerts, the chat, the tables, the opponent's click and the lobby
      update only show something: they change no field, and only the chat,
      table, click and update lines can throw. */
  lemma DisplayWordsKeepState(s: ClientState, w: ServerWord, data: string, accept: bool)
    requires w in {OnAlert, OnOther, OnOpponentClick, OnIncomingMessage, OnLeaderboard, OnMatchHistory, OnLobbyUpdate}
    ensures React(s, w, data, accept).next == s
    ensures React(s, w, data, accept).thrown ==> w != OnAlert && w != OnOther
  {
  }

  /** After a readable GAME_ENDED line, whatever the user answers in the end
      dialog, and after LOBBY_CLOSED, the client has left its game: no game
      id (so a click sends nothing), no opponent, score 0, an empty list and
      a request for a new one. The account, the items and the connection
      are kept. */
  lemma BackToMenu(s: ClientState, w: ServerWord, data: string, accept: bool)
    requires w == OnLobbyClosed || (w == OnGameEnded && ClassifyGameEnded(data, s.username) != EndThrew)
    ensures var r := React(s, w, data, accept);
      && !r.thrown && r.next.gameId == None && r.next.opponent == None && r.next.score == 0
      && r.next.shown == [] && r.next.listReady
      && r.next.sent == s.sent + (if s.connected then ["GET_ONLINE_USERS"] else [])
      && r.next.username == s.username && r.next.buffs == s.buffs && r.next.debuffs == s.debuffs
      && r.next.users == s.users && r.next.connected == s.connected && r.next.open == s.open
      && r.next.lobbyId == (if w == OnLobbyClosed then None else s.lobbyId)
  {
  }

  /** The server's GAME_ENDED line always brings the client back to the
      main menu: it is read as GAME_ENDED, its outcome field is there, and
      the game id is cleared. */
  lemma ServerEndReturnsToMenu(s: ClientState, outcome: string, score1: int, score2: int, accept: bool)
    requires ',' !in outcome
    ensures var r := Receive(s, Text(GameEnded(outcome, score1, score2)), accept);
      && !r.thrown && r.ended.Some? && r.next.gameId == None && r.next.opponent == None && r.next.score == 0
  {
    var data := outcome + "," + IntToString(score1) + "," + IntToString(score2);
    EndedLineReadable(outcome, score1, score2, s.username);
    ReceiveEnded(s, Text(GameEnded(outcome, score1, score2)), data, accept);
  }

  /** A GAME_ENDED line whose outcome is readable leads back to the menu. */
  lemma ReceiveEnded(s: ClientState, line: string, data: string, accept: bool)
    requires line == "GAME_ENDED" + ":" + data
    requires ClassifyGameEnded(data, s.username) != EndThrew
    ensures var r := Receive(s, line, accept);
      && !r.thrown && r.ended.Some? && r.next.gameId == None && r.next.opponent == None && r.next.score == 0
  {
    WordTextSelects(OnGameEnded);
    ReceiveOf(s, WordText(OnGameEnded), data, accept);
  }

  /** The server's GAME_ENDED line carries its outcome as a first field. */
  lemma EndedLineReadable(outcome: string, score1: int, score2: int, current: Option<string>)
    requires ',' !in outcome
    ensures var data := outcome + "," + IntToString(score1) + "," + IntToString(score2);
      && Text(GameEnded(outcome, score1, score2)) == "GAME_ENDED" + ":" + data
      && ClassifyGameEnded(data, current) != EndThrew
  {
    var (a, b) := (IntToString(score1), IntToString(score2));
    var data := outcome + "," + a + "," + b;
    assert Text(GameEnded(outcome, score1, score2)) == "GAME_ENDED" + ":" + data;
    IntToStringIsPlain(score1, ',');
    IntToStringIsPlain(score2, ',');
    JoinThree(outcome, a, b);
    SplitOfJoin([outcome, a, b], ",");
    assert |Split(data, ",")| == 3;
  }

  /** A line made of a command word, ':' and data is handled by that word's
      case on that data. */
  lemma ReceiveOf(s: ClientState, command: string, data: string, accept: bool)
    requires ':' !in command
    ensures Receive(s, command + ":" + data, accept) == React(s, WordOf(command), data, accept)
  {
    FrameOf(command, data);
  }

  /** What a server line may change: the writer never, the socket only on
      REGISTER_SUCCESS (it closes), the user only on LOGIN_SUCCESS; the game
      id only when a game starts or is left; the score and the items only on
      the lines of a match; and at most one line goes back, the list request
      or the answer to an invitation. */
  lemma ReactTouches(s: ClientState, w: ServerWord, data: string, accept: bool)
    ensures var r := React(s, w, data, accept);
      && r.next.connected == s.connected
      && r.next.open == (if w == OnRegisterSuccess then false else s.open)
      && (r.next.username != s.username ==> w == OnLoginSuccess)
      && (r.next.gameId != s.gameId ==> w in {OnGameStarted, OnGameEnded, OnLobbyClosed})
      && (r.next.lobbyId != s.lobbyId ==> w in {OnLobbyReady, OnLobbyClosed})
      && (r.next.score != s.score ==> w in ScoreWords || w == OnGameEnded || w == OnLobbyClosed)
      && (r.next.buffs != s.buffs ==> w in {OnGrainResult, OnBuffActivated, OnGameStarted})
      && (r.next.debuffs != s.debuffs ==> w in {OnGrainResult, OnDebuffSuccess, OnGameStarted})
      && |s.sent| <= |r.next.sent| <= |s.sent| + 1 && r.next.sent[..|s.sent|] == s.sent
      && (|r.next.sent| > |s.sent| ==>
            s.connected && r.next.sent[|s.sent|] in {"GET_ONLINE_USERS", InvitationAnswer(data, accept)})
  {
  }

  /** The state of a GameClient that its protocol handlers read and write. */
  class GameClient {
    var currentUsername: Option<string>
    var currentGameId: Option<string>
    var opponent: Option<string>
    var currentLobbyId: Option<string>
    var currentScore: int
    var buffCount: int
    var debuffCount: int
    var riceIndexes: set<int>
    var onlineUsers: map<string, UserInfo>
    var userList: seq<string>
    /** Whether the main screen, and with it the list of online users, exists. */
    var listReady: bool
    /** Whether a socket and its writer exist: set by the first successful
        connection, cleared by logout only. */
    var connected: bool
    /** Whether that socket is still open; a line written on a closed socket
        is lost. */
    var open: bool
    /** The lines handed to the writer, oldest first. */
    var sent: seq<string>

    constructor()
      ensures currentUsername == None && currentGameId == None && opponent == None && currentLobbyId == None
      ensures currentScore == 0 && buffCount == 0 && debuffCount == 0 && riceIndexes == {}
      ensures onlineUsers == map[] && userList == [] && !listReady && !connected && !open && sent == []
    {
      currentUsername, currentGameId, opponent, currentLobbyId := None, None, None, None;
      currentScore, buffCount, debuffCount, riceIndexes := 0, 0, 0, {};
      onlineUsers, userList, listReady, connected, open, sent := map[], [], false, false, false, [];
    }

    /** The client's fields as one value. */
    function State(): ClientState
      reads this
    {
      ClientState(currentUsername, currentGameId, opponent, currentLobbyId, currentScore, buffCount, debuffCount,
                  riceIndexes, onlineUsers, userList, listReady, connected, open, sent)
    }

    /** sendMessage: a line is written only while a writer is open. */
    method SendMessage(line: string)
      modifies this`sent
      ensures sent == old(sent) + (if connected then [line] else [])
    {
      if connected {
        sent := sent + [line];
      }
    }

    /** The login button; `reachable` says whether the new connection
        succeeds. A failed connection keeps the earlier socket, which still
        counts as connected, so LOGIN goes out on it. */
    method SubmitLogin(server: string, username: string, password: string, reachable: bool)
      modifies this`connected, this`open, this`sent
      ensures var s := LoginSubmission(server, username, password);
        && connected == (old(connected) || (s.Send? && reachable))
        && open == (if s.Send? && reachable then true else old(open))
        && sent == old(sent) + (if s.Send? && (reachable || old(connected)) then [s.line] else [])
    {
      var s := LoginSubmission(server, username, password);
      if s.Send? {
        if reachable {
          connected, open := true, true;
        }
        SendMessage(s.line);
      }
    }

    /** The register button: an open socket is closed first, then a new
        connection is made; like the login button, REGISTER goes out on the
        earlier socket when the new connection fails. */
    method SubmitRegistration(server: string, username: string, password: string, confirm: string, reachable: bool)
      modifies this`connected, this`open, this`sent
      ensures var s := RegisterSubmission(server, username, password, confirm);
        && connected == (old(connected) || (s.Send? && reachable))
        && open == (if s.Send? then reachable else old(open))
        && sent == old(sent) + (if s.Send? && (reachable || old(connected)) then [s.line] else [])
    {
      var s := RegisterSubmission(server, username, password, confirm);
      if s.Send? {
        open := false;
        if reachable {
          connected, open := true, true;
        }
        SendMessage(s.line);
      }
    }

    /** The invite menu item on the selected entry of the online list. */
    method Invite(selected: Option<string>) returns (choice: InviteChoice)
      modifies this`sent
      ensures choice == InviteChoiceFor(selected, old(currentUsername))
      ensures sent == old(sent) + (if choice.InviteSent? && connected then [choice.line] else [])
    {
      choice := InviteChoiceFor(selected, currentUsername);
      if choice.InviteSent? {
        SendMessage(choice.line);
      }
    }

    /** A click on a cell of the grid sends a game action while a game runs. */
    method ClickGrain(index: int)
      requires 0 <= index < TotalGrains
      modifies this`sent
      ensures sent == old(sent) + (if currentGameId.Some? && connected then [Line("GAME_ACTION", IntToString(index))] else [])
    {
      if currentGameId.Some? {
        SendMessage(Line("GAME_ACTION", IntToString(index)));
      }
    }

    /** The use-buff button: USE_BUFF goes out only while a buff is held. */
    method UseBuff()
      modifies this`sent
      ensures sent == old(sent) + (if buffCount > 0 && connected then ["USE_BUFF"] else [])
    {
      if buffCount > 0 {
        SendMessage("USE_BUFF");
      }
    }

    /** The use-debuff button: USE_DEBUFF goes out only while a debuff is held. */
    method UseDebuff()
      modifies this`sent
      ensures sent == old(sent) + (if debuffCount > 0 && connected then ["USE_DEBUFF"] else [])
    {
      if debuffCount > 0 {
        SendMessage("USE_DEBUFF");
      }
    }

    /** The logout button: the writer is closed and the user, game, opponent
        and score are reset. */
    method Logout()
      modifies this`currentUsername, this`currentGameId, this`opponent, this`currentScore, this`connected, this`open
      ensures currentUsername == None && currentGameId == None && opponent == None
      ensures currentScore == 0 && !connected && !open
    {
      currentUsername, currentGameId, opponent, currentScore := None, None, None, 0;
      connected, open := false, false;
    }

    /** LOGIN_SUCCESS: the user is recorded, the main screen with an empty
        list is built, and the list of online users is requested. */
    method LoginSucceeded(user: string)
      modifies this`currentUsername, this`userList, this`listReady, this`sent
      ensures currentUsername == Some(user) && userList == [] && listReady
      ensures sent == old(sent) + (if connected then ["GET_ONLINE_USERS"] else [])
    {
      currentUsername := Some(user);
      userList, listReady := [], true;
      SendMessage("GET_ONLINE_USERS");
    }

    /** updateOnlineUsers: ignored before the main screen exists; otherwise
        the table and the list are rebuilt row by row, and a score that does
        not parse stops the rebuild where it is. */
    method UpdateOnlineUsers(data: string) returns (thrown: bool)
      modifies this`onlineUsers, this`userList
      ensures !listReady ==> !thrown && onlineUsers == old(onlineUsers) && userList == old(userList)
      ensures listReady ==> Listing(onlineUsers, userList, thrown) == OnlineListing(data, currentUsername)
    {
      thrown := false;
      if !listReady {
        return;
      }
      onlineUsers, userList := map[], [];
      if data != "" {
        var rows := Split(data, ";");
        var i := 0;
        while i < |rows| && !thrown
          invariant 0 <= i <= |rows|
          invariant Listing(onlineUsers, userList, thrown) == ListRows(rows[..i], currentUsername)
          invariant thrown ==> ListRows(rows, currentUsername) == ListRows(rows[..i], currentUsername)
        {
          ListRowsStep(rows, i, currentUsername);
          thrown := ReadUserRow(rows[i]);
          if thrown {
            ThrownSticks(rows, i + 1, currentUsername);
          }
          i := i + 1;
        }
        assert !thrown ==> rows[..i] == rows;
      }
    }

    /** One row of updateOnlineUsers, read into the table and the list. */
    method ReadUserRow(row: string) returns (thrown: bool)
      modifies this`onlineUsers, this`userList
      ensures Listing(onlineUsers, userList, thrown)
           == ListRow(Listing(old(onlineUsers), old(userList), false), row, currentUsername)
    {
      thrown := false;
      if Trim(row) != "" {
        var parts := Split(row, ",");
        if |parts| >= 3 {
          var score := ParseInt(parts[1]);
          if score.None? {
            thrown := true;
          } else {
            var name := parts[0];
            onlineUsers := onlineUsers[name := UserInfo(name, score.value, parts[2])];
            if Some(name) != currentUsername {
              userList := userList + [DisplayText(name, score.value, parts[2])];
            }
          }
        }
      }
    }

    /** handleGameStarted: id and opponent are taken as they are read, so a
        line that throws may leave them set; a complete line resets the item
        counts and records the rice cells. */
    method HandleGameStarted(data: string) returns (thrown: bool)
      modifies this`currentGameId, this`opponent, this`buffCount, this`debuffCount, this`riceIndexes
      ensures thrown <==> ReadGameStarted(data).None?
      ensures Receipt(State(), thrown, None) == StartedGame(old(State()), data)
    {
      var parts := Split(data, ",");
      StartedGameShape(State(), data);
      thrown := true;
      if |parts| > 0 {
        currentGameId := Some(parts[0]);
      }
      if |parts| > 1 {
        opponent := Some(parts[1]);
      }
      if |parts| >= 3 && ParseInt(parts[2]).Some? {
        var rice := if |parts| > 3 then parts[3] else "";
        buffCount, debuffCount := 0, 0;
        riceIndexes := DecodeRicePositions(rice);
        thrown := false;
      }
    }

    /** handleGrainResult: the score is taken from any readable line, and a
        cell of the grid adds the item its tag names to the inventory. */
    method HandleGrainResult(data: string) returns (thrown: bool)
      modifies this`currentScore, this`buffCount, this`debuffCount
      ensures thrown <==> !ReadGrainResult(data).GrainSeen?
      ensures Receipt(State(), thrown, None) == GrainScored(old(State()), data)
    {
      var v := ReadGrainResult(data);
      if v.GrainUnread? {
        return true;
      }
      currentScore := v.score;
      if v.GrainOffGrid? {
        return true;
      }
      var item := ItemOf(v.tag);
      if item == BuffItem {
        buffCount := buffCount + 1;
      } else if item == DebuffItem {
        debuffCount := debuffCount + 1;
      }
      thrown := false;
    }

    /** handleOpponentScore: a score naming the current user replaces the
        user's own score. */
    method HandleOpponentScore(data: string) returns (thrown: bool)
      modifies this`currentScore
      ensures var v := ReadOpponentScore(data);
        && thrown == v.None?
        && currentScore == (if v.Some? && Some(v.value.0) == old(currentUsername) then v.value.1 else old(currentScore))
      ensures Receipt(State(), thrown, None) == OpponentScored(old(State()), data)
    {
      var v := ReadOpponentScore(data);
      thrown := v.None?;
      if v.Some? && Some(v.value.0) == currentUsername {
        currentScore := v.value.1;
      }
    }

    /** BUFF_ACTIVATED: the new score is taken and one buff is used up. */
    method BuffActivated(data: string) returns (thrown: bool)
      modifies this`currentScore, this`buffCount
      ensures var v := ReadSigned(data, "+");
        && thrown == v.SignedUnread?
        && currentScore == (if v.SignedScore? then v.score else old(currentScore))
        && buffCount == old(buffCount) - (if v.SignedScore? then 1 else 0)
      ensures Receipt(State(), thrown, None) == Signed(old(State()), data, true)
    {
      var v := ReadSigned(data, "+");
      thrown := v.SignedUnread?;
      if v.SignedScore? {
        currentScore := v.score;
        buffCount := buffCount - 1;
      }
    }

    /** DEBUFF_SUCCESS: one debuff is used up. */
    method DebuffSucceeded()
      modifies this`debuffCount
      ensures debuffCount == old(debuffCount) - 1
    {
      debuffCount := debuffCount - 1;
    }

    /** DEBUFF_ACTIVATED: the user's score lowered by the opponent is taken. */
    method DebuffActivated(data: string) returns (thrown: bool)
      modifies this`currentScore
      ensures var v := ReadSigned(data, "-");
        && thrown == v.SignedUnread?
        && currentScore == (if v.SignedScore? then v.score else old(currentScore))
      ensures Receipt(State(), thrown, None) == Signed(old(State()), data, false)
    {
      var v := ReadSigned(data, "-");
      thrown := v.SignedUnread?;
      if v.SignedScore? {
        currentScore := v.score;
      }
    }

    /** GAME_INVITATION: the user's answer to the dialog goes back naming the
        inviter. */
    method AnswerInvitation(inviter: string, accept: bool)
      modifies this`sent
      ensures sent == old(sent) + (if connected then [InvitationAnswer(inviter, accept)] else [])
    {
      SendMessage(InvitationAnswer(inviter, accept));
    }

    /** backToMainMenu: the game is left, the main screen is rebuilt with an
        empty list, and the list of online users is requested again. */
    method BackToMainMenu()
      modifies this`currentGameId, this`opponent, this`currentScore, this`userList, this`listReady, this`sent
      ensures currentGameId == None && opponent == None && currentScore == 0
      ensures userList == [] && listReady
      ensures sent == old(sent) + (if connected then ["GET_ONLINE_USERS"] else [])
    {
      currentGameId, opponent, currentScore := None, None, 0;
      userList, listReady := [], true;
      SendMessage("GET_ONLINE_USERS");
    }

    /** handleGameEnded: a line whose outcome field is missing throws;
        otherwise the end dialog leads back to the main menu whatever the
        user picks. */
    method HandleGameEnded(data: string) returns (view: EndView)
      modifies this`currentGameId, this`opponent, this`currentScore, this`userList, this`listReady, this`sent
      ensures view == ClassifyGameEnded(data, currentUsername)
      ensures view == EndThrew ==> unchanged(this)
      ensures view != EndThrew ==>
        && currentGameId == None && opponent == None && currentScore == 0 && userList == [] && listReady
        && sent == old(sent) + (if connected then ["GET_ONLINE_USERS"] else [])
      ensures Receipt(State(), view == EndThrew, Some(view)) == EndedGame(old(State()), data)
    {
      view := ClassifyGameEnded(data, currentUsername);
      if view != EndThrew {
        BackToMainMenu();
      }
    }

    /** REGISTER_SUCCESS: the socket is closed, while the writer is kept. */
    method RegisterSucceeded()
      modifies this`open
      ensures !open
    {
      open := false;
    }

    /** LOBBY_READY: the lobby id is taken once the line has its three fields. */
    method LobbyReady(data: string) returns (thrown: bool)
      modifies this`currentLobbyId
      ensures thrown <==> LobbyFields(data).None?
      ensures currentLobbyId == if thrown then old(currentLobbyId) else Some(LobbyFields(data).value.0)
    {
      var fields := LobbyFields(data);
      thrown := fields.None?;
      if fields.Some? {
        currentLobbyId := Some(fields.value.0);
      }
    }

    /** LOBBY_CLOSED: the lobby is forgotten and the main menu comes back. */
    method LobbyClosed()
      modifies this`currentLobbyId, this`currentGameId, this`opponent, this`currentScore, this`userList,
               this`listReady, this`sent
      ensures currentLobbyId == None && currentGameId == None && opponent == None && currentScore == 0
      ensures userList == [] && listReady
      ensures sent == old(sent) + (if connected then ["GET_ONLINE_USERS"] else [])
    {
      currentLobbyId := None;
      BackToMainMenu();
    }

    /** processServerMessage: the word before the first ':' selects the
        handler, and the whole client moves as Receive says. `accept` is the
        user's answer to an invitation dialog. */
    method ProcessServerMessage(message: string, accept: bool) returns (thrown: bool, ended: Option<EndView>)
      modifies this
      ensures Receipt(State(), thrown, ended) == Receive(old(State()), message, accept)
    {
      var (command, data) := Frame(message);
      thrown, ended := ReactTo(WordOf(command), data, accept);
    }

    /** The case of the switch selected by the word. */
    method ReactTo(w: ServerWord, data: string, accept: bool) returns (thrown: bool, ended: Option<EndView>)
      modifies this
      ensures Receipt(State(), thrown, ended) == React(old(State()), w, data, accept)
    {
      if w in AccountWords {
        thrown, ended := ReactToAccount(w, data, accept);
      } else if w in PlayWords {
        thrown, ended := ReactToPlay(w, data);
      } else if w in ScoreWords {
        thrown, ended := ReactToScore(w, data);
      } else {
        thrown, ended := ReactToOther(w, data);
      }
    }

    /** The handlers of the login, presence and invitation lines. */
    method ReactToAccount(w: ServerWord, data: string, accept: bool) returns (thrown: bool, ended: Option<EndView>)
      requires w in AccountWords
      modifies this
      ensures Receipt(State(), thrown, ended) == React(old(State()), w, data, accept)
    {
      thrown, ended := false, None;
      match w {
        case OnLoginSuccess => LoginSucceeded(data);
        case OnRegisterSuccess => RegisterSucceeded();
        case OnOnlineUsers => thrown := UpdateOnlineUsers(data);
        case OnInvitation => AnswerInvitation(data, accept);
      }
    }

    /** The handlers of the start and the end of a match. */
    method ReactToPlay(w: ServerWord, data: string) returns (thrown: bool, ended: Option<EndView>)
      requires w in PlayWords
      modifies this
      ensures Receipt(State(), thrown, ended) == React(old(State()), w, data, false)
    {
      thrown, ended := false, None;
      match w {
        case OnGameStarted => thrown := HandleGameStarted(data);
        case OnGameEnded =>
          var view := HandleGameEnded(data);
          ended, thrown := Some(view), view == EndThrew;
      }
    }

    /** The handlers of the score and item lines of a match. */
    method ReactToScore(w: ServerWord, data: string) returns (thrown: bool, ended: Option<EndView>)
      requires w in ScoreWords
      modifies this
      ensures Receipt(State(), thrown, ended) == React(old(State()), w, data, false)
    {
      thrown, ended := false, None;
      match w {
        case OnGrainResult => thrown := HandleGrainResult(data);
        case OnOpponentScore => thrown := HandleOpponentScore(data);
        case OnBuffActivated => thrown := BuffActivated(data);
        case OnDebuffSuccess => DebuffSucceeded();
        case OnDebuffActivated => thrown := DebuffActivated(data);
      }
    }

    /** The handlers of the remaining words: chat, tables, lobby and alerts. */
    method ReactToOther(w: ServerWord, data: string) returns (thrown: bool, ended: Option<EndView>)
      requires w !in AccountWords && w !in PlayWords && w !in ScoreWords
      modifies this
      ensures Receipt(State(), thrown, ended) == React(old(State()), w, data, false)
    {
      thrown, ended := false, None;
      match w {
        case OnOpponentClick => thrown := !OpponentClickRead(data);
        case OnIncomingMessage => thrown := ChatRequest(data).None?;
        case OnLeaderboard =>
          var _, t := ReadLeaderboard(data);
          thrown := t;
        case OnMatchHistory =>
          var _, _, _, _, t := ReadMatchHistory(data);
          thrown := t;
        case OnLobbyReady => thrown := LobbyReady(data);
        case OnLobbyClosed => LobbyClosed();
        case OnLobbyUpdate => thrown := LobbyFields(data).None?;
        case OnAlert =>
        case OnOther =>
      }
    }
  }

  lemma ListRowsStep(rows: seq<string>, i: int, current: Option<string>)
    requires 0 <= i < |rows| && !ListRows(rows[..i], current).threw
    ensures ListRows(rows[..i + 1], current) == ListRow(ListRows(rows[..i], current), rows[i], current)
  {
    assert rows[..i + 1][..i] == rows[..i];
  }

  /** Once a row throws, the rows after it are not read. */
  lemma {:induction false} ThrownSticks(rows: seq<string>, i: int, current: Option<string>)
    requires 0 <= i <= |rows| && ListRows(rows[..i], current).threw
    ensures ListRows(rows, current) == ListRows(rows[..i], current)
    decreases |rows| - i
  {
    if i < |rows| {
      assert rows[..i + 1][..i] == rows[..i];
      ThrownSticks(rows, i + 1, current);
    } else {
      assert rows[..i] == rows;
    }
  }

  // ---------------------------------------------------------------------------
  // Match history and leaderboard
  // ---------------------------------------------------------------------------

  /** How a ';' row of a table fares: skipped, kept as an entry, or throwing
      (which ends the reading). */
  datatype RowFate<T> = Skipped | Kept(entry: T) | Broke

  /** The entries read so far, and whether a row threw. */
  datatype Table<T> = Table(entries: seq<T>, threw: bool)

  /** A table after one more row that did not follow a throw. */
  function Advance<T>(t: Table<T>, fate: RowFate<T>): Table<T>
  {
    match fate
    case Skipped => t
    case Kept(e) => Table(t.entries + [e], false)
    case Broke => Table(t.entries, true)
  }

  /** A row's fate applied to the entries read so far. */
  method AddRow<T>(entries: seq<T>, fate: RowFate<T>) returns (after: seq<T>, thrown: bool)
    ensures Table(after, thrown) == Advance(Table(entries, false), fate)
  {
    after, thrown := entries, false;
    match fate {
      case Skipped =>
      case Kept(e) => after := entries + [e];
      case Broke => thrown := true;
    }
  }

  datatype MatchEntry = MatchEntry(gameId: string, opponent: string, result: string,
                                   myScore: int, opponentScore: int, duration: string, playedAt: string)

  /** A row of showMatchHistory: blank rows and rows of fewer than seven ','
      fields are skipped; both scores must parse. */
  function HistoryRow(row: string): RowFate<MatchEntry>
  {
    if Trim(row) == "" then Skipped
    else
      var m := Split(row, ",");
      if |m| < 7 then Skipped
      else match (ParseInt(m[3]), ParseInt(m[4]))
        case (Some(mine), Some(theirs)) => Kept(MatchEntry(m[0], m[1], m[2], mine, theirs, m[5], m[6]))
        case _ => Broke
  }

  function HistoryRows(rows: seq<string>): Table<MatchEntry>
  {
    if |rows| == 0 then Table([], false)
    else
      var t := HistoryRows(rows[..|rows| - 1]);
      if t.threw then t else Advance(t, HistoryRow(rows[|rows| - 1]))
  }

  /** The entries of MATCH_HISTORY data. */
  function History(data: string): Table<MatchEntry>
  {
    if data == "" then Table([], false) else HistoryRows(Split(data, ";"))
  }

  /** How many entries carry the given result word. */
  function CountResult(entries: seq<MatchEntry>, result: string): nat
  {
    if |entries| == 0 then 0
    else CountResult(entries[..|entries| - 1], result) + (if entries[|entries| - 1].result == result then 1 else 0)
  }

  /** Every entry kept comes from a row of at least seven fields whose scores
      parse, in the order of the rows. */
  lemma {:induction false} HistoryEntriesRead(rows: seq<string>)
    ensures forall e :: e in HistoryRows(rows).entries ==> exists r :: r in rows && HistoryRow(r) == Kept(e)
    ensures |HistoryRows(rows).entries| <= |rows|
    decreases |rows|
  {
    if |rows| > 0 {
      var init := rows[..|rows| - 1];
      HistoryEntriesRead(init);
      forall e | e in HistoryRows(rows).entries ensures exists r :: r in rows && HistoryRow(r) == Kept(e) {
        if e in HistoryRows(init).entries {
          var r :| r in init && HistoryRow(r) == Kept(e);
          assert r in rows;
        } else {
          assert HistoryRow(rows[|rows| - 1]) == Kept(e);
        }
      }
    }
  }

  /** A kept row has at least seven fields. */
  lemma KeptRowShape(row: string)
    ensures HistoryRow(row).Kept? ==> |Split(row, ",")| >= 7 && Trim(row) != ""
  {
  }

  /** The summary counts are at most the number of matches, as the three
      result words are distinct. */
  lemma {:induction false} CountsBounded(entries: seq<MatchEntry>)
    ensures CountResult(entries, "WIN") + CountResult(entries, "LOSS") + CountResult(entries, "DRAW") <= |entries|
    decreases |entries|
  {
    if |entries| > 0 {
      CountsBounded(entries[..|entries| - 1]);
    }
  }

  /** showMatchHistory: the entries, then the numbers of WIN, LOSS and DRAW
      entries; a row that throws ends the screen before the summary, and the
      counts are then 0. */
  method ReadMatchHistory(data: string) returns (entries: seq<MatchEntry>, wins: nat, losses: nat, draws: nat, thrown: bool)
    ensures Table(entries, thrown) == History(data)
    ensures !thrown ==> wins == CountResult(entries, "WIN") && losses == CountResult(entries, "LOSS")
                        && draws == CountResult(entries, "DRAW")
    ensures wins + losses + draws <= |entries|
  {
    entries, thrown := ReadHistoryRows(data);
    wins, losses, draws := 0, 0, 0;
    if !thrown {
      wins, losses, draws := Summarize(entries);
    }
  }

  /** showMatchHistory's reading loop. */
  method ReadHistoryRows(data: string) returns (entries: seq<MatchEntry>, thrown: bool)
    ensures Table(entries, thrown) == History(data)
  {
    entries, thrown := [], false;
    if data != "" {
      var rows := Split(data, ";");
      var i := 0;
      while i < |rows| && !thrown
        invariant 0 <= i <= |rows|
        invariant Table(entries, thrown) == HistoryRows(rows[..i])
        invariant thrown ==> HistoryRows(rows) == HistoryRows(rows[..i])
      {
        HistoryStep(rows, i);
        entries, thrown := AddRow(entries, HistoryRow(rows[i]));
        if thrown {
          HistorySticks(rows, i + 1);
        }
        i := i + 1;
      }
      assert !thrown ==> rows[..i] == rows;
    }
  }

  /** The summary of the history screen: the entries counted by result. */
  method Summarize(entries: seq<MatchEntry>) returns (wins: nat, losses: nat, draws: nat)
    ensures wins == CountResult(entries, "WIN") && losses == CountResult(entries, "LOSS")
    ensures draws == CountResult(entries, "DRAW")
    ensures wins + losses + draws <= |entries|
  {
    wins, losses, draws := 0, 0, 0;
    var k := 0;
    while k < |entries|
      invariant 0 <= k <= |entries|
      invariant wins == CountResult(entries[..k], "WIN") && losses == CountResult(entries[..k], "LOSS")
      invariant draws == CountResult(entries[..k], "DRAW")
    {
      assert entries[..k + 1][..k] == entries[..k];
      var result := entries[k].result;
      if result == "WIN" {
        wins := wins + 1;
      } else if result == "LOSS" {
        losses := losses + 1;
      } else if result == "DRAW" {
        draws := draws + 1;
      }
      k := k + 1;
    }
    assert entries[..k] == entries;
    CountsBounded(entries);
  }

  lemma HistoryStep(rows: seq<string>, i: int)
    requires 0 <= i < |rows| && !HistoryRows(rows[..i]).threw
    ensures HistoryRows(rows[..i + 1]) == Advance(HistoryRows(rows[..i]), HistoryRow(rows[i]))
  {
    assert rows[..i + 1][..i] == rows[..i];
  }

  lemma {:induction false} HistorySticks(rows: seq<string>, i: int)
    requires 0 <= i <= |rows| && HistoryRows(rows[..i]).threw
    ensures HistoryRows(rows) == HistoryRows(rows[..i])
    decreases |rows| - i
  {
    if i < |rows| {
      assert rows[..i + 1][..i] == rows[..i];
      HistorySticks(rows, i + 1);
    } else {
      assert rows[..i] == rows;
    }
  }

  datatype RankEntry = RankEntry(rank: int, username: string, totalScore: int, gamesPlayed: int,
                                 gamesWon: int, winRate: string)

  /** A row of showLeaderboard with the rank it would get: blank rows are
      skipped; the row must have five ',' fields with three integers, and
      otherwise throws. */
  function RankRow(row: string, rank: int): RowFate<RankEntry>
  {
    if Trim(row) == "" then Skipped
    else
      var p := Split(row, ",");
      if |p| < 5 then Broke
      else match (ParseInt(p[1]), ParseInt(p[2]), ParseInt(p[3]))
        case (Some(score), Some(played), Some(won)) => Kept(RankEntry(rank, p[0], score, played, won, p[4] + "%"))
        case _ => Broke
  }

  function RankRows(rows: seq<string>): Table<RankEntry>
  {
    if |rows| == 0 then Table([], false)
    else
      var t := RankRows(rows[..|rows| - 1]);
      if t.threw then t else Advance(t, RankRow(rows[|rows| - 1], |t.entries| + 1))
  }

  /** The entries of LEADERBOARD data. */
  function Ranking(data: string): Table<RankEntry>
  {
    if data == "" then Table([], false) else RankRows(Split(data, ";"))
  }

  /** The ranks are 1, 2, 3, ... in the order of the entries, whatever rows
      were skipped. */
  lemma {:induction false} RanksConsecutive(rows: seq<string>)
    ensures forall i :: 0 <= i < |RankRows(rows).entries| ==> RankRows(rows).entries[i].rank == i + 1
    decreases |rows|
  {
    if |rows| > 0 {
      var t := RankRows(rows[..|rows| - 1]);
      RanksConsecutive(rows[..|rows| - 1]);
      RankRowRank(rows[|rows| - 1], |t.entries| + 1);
    }
  }

  lemma RankRowRank(row: string, rank: int)
    ensures RankRow(row, rank).Kept? ==> RankRow(row, rank).entry.rank == rank
  {
  }

  /** Every win rate shown ends in '%'. */
  lemma {:induction false} RatesPercent(rows: seq<string>)
    ensures forall i :: 0 <= i < |RankRows(rows).entries| ==> HasSuffix(RankRows(rows).entries[i].winRate, "%")
    decreases |rows|
  {
    if |rows| > 0 {
      RatesPercent(rows[..|rows| - 1]);
      var t := RankRows(rows[..|rows| - 1]);
      var r := RankRow(rows[|rows| - 1], |t.entries| + 1);
      if !t.threw && r.Kept? {
        var w := r.entry.winRate;
        assert w[|w| - 1..] == "%";
      }
    }
  }

  /** showLeaderboard's reading loop: a rank counter starting at 1 numbers
      the entries kept. */
  method ReadLeaderboard(data: string) returns (entries: seq<RankEntry>, thrown: bool)
    ensures Table(entries, thrown) == Ranking(data)
  {
    entries, thrown := [], false;
    if data != "" {
      var rows := Split(data, ";");
      var rank := 1;
      var i := 0;
      while i < |rows| && !thrown
        invariant 0 <= i <= |rows|
        invariant Table(entries, thrown) == RankRows(rows[..i])
        invariant rank == |entries| + 1
        invariant thrown ==> RankRows(rows) == RankRows(rows[..i])
      {
        RankStep(rows, i);
        entries, thrown := AddRow(entries, RankRow(rows[i], rank));
        if thrown {
          RankSticks(rows, i + 1);
        }
        rank := |entries| + 1;
        i := i + 1;
      }
      assert !thrown ==> rows[..i] == rows;
    }
  }

  lemma RankStep(rows: seq<string>, i: int)
    requires 0 <= i < |rows| && !RankRows(rows[..i]).threw
    ensures RankRows(rows[..i + 1]) == Advance(RankRows(rows[..i]), RankRow(rows[i], |RankRows(rows[..i]).entries| + 1))
  {
    assert rows[..i + 1][..i] == rows[..i];
  }

  lemma {:induction false} RankSticks(rows: seq<string>, i: int)
    requires 0 <= i <= |rows| && RankRows(rows[..i]).threw
    ensures RankRows(rows) == RankRows(rows[..i])
    decreases |rows| - i
  {
    if i < |rows| {
      assert rows[..i + 1][..i] == rows[..i];
      RankSticks(rows, i + 1);
    } else {
      assert rows[..i] == rows;
    }
  }
}
