/** The rules of one rice-picking match, as pure functions on a snapshot of a
    GameSession: the board, the click rule, the buff and debuff, and the four
    ways a match ends (target score, all rice collected, timeout, quit). The
    GameSession class is proved to move between these snapshots. */
module MatchRules {
  import opened Wire

  datatype GrainType = Rice | Chaff
  datatype PowerupType = NoPowerup | ScoreBuff | ScoreDebuff

  const TotalGrains: int := 100
  const TargetRice: int := 50
  const GameDuration: int := 100
  const NumRice: int := 67
  const NumBuffs: int := 5
  const NumDebuffs: int := 3
  const BuffBonus: int := 3
  const DebuffPenalty: int := 2
  /** The winner name used when both scores are equal. */
  const Draw: string := "DRAW"

  predicate Distinct<T(==)>(xs: seq<T>)
  {
    forall i, j :: 0 <= i < j < |xs| ==> xs[i] != xs[j]
  }

  predicate OnBoard(xs: seq<int>)
  {
    forall i :: 0 <= i < |xs| ==> 0 <= xs[i] < TotalGrains
  }

  // ---------------------------------------------------------------------------
  // The board
  // ---------------------------------------------------------------------------

  /** The cells the three random-draw loops of initializeItems pick: 67 rice
      cells, then 5 buff cells and 3 debuff cells drawn from one shared set. */
  datatype Placement = Placement(rice: seq<int>, buffs: seq<int>, debuffs: seq<int>)

  /** What the rejection loops guarantee about their draws. */
  predicate ValidPlacement(p: Placement)
  {
    && |p.rice| == NumRice && |p.buffs| == NumBuffs && |p.debuffs| == NumDebuffs
    && Distinct(p.rice) && Distinct(p.buffs + p.debuffs)
    && OnBoard(p.rice) && OnBoard(p.buffs) && OnBoard(p.debuffs)
  }

  /** The grain array after filling with CHAFF and marking every rice draw. */
  function GrainsOf(p: Placement): seq<GrainType>
  {
    seq(TotalGrains, i => if i in p.rice then Rice else Chaff)
  }

  /** The powerup array after filling with NONE, marking the buff draws and
      then the debuff draws (a later mark overwrites an earlier one). */
  function PowerupsOf(p: Placement): seq<PowerupType>
  {
    seq(TotalGrains, i => if i in p.debuffs then ScoreDebuff else if i in p.buffs then ScoreBuff else NoPowerup)
  }

  function RiceCells(grains: seq<GrainType>): set<int>
  {
    set i | 0 <= i < |grains| && grains[i] == Rice
  }

  function PowerupCells(powerups: seq<PowerupType>, kind: PowerupType): set<int>
  {
    set i | 0 <= i < |powerups| && powerups[i] == kind
  }

  /** The rice cells below n in ascending order: what the StringBuilder loop
      of startGame visits. */
  function RiceList(grains: seq<GrainType>, n: nat): seq<int>
    requires n <= |grains|
  {
    if n == 0 then [] else RiceList(grains, n - 1) + (if grains[n - 1] == Rice then [n - 1] else [])
  }

  function Numerals(xs: seq<int>): seq<string>
  {
    seq(|xs|, k requires 0 <= k < |xs| => IntToString(xs[k]))
  }

  /** The rice positions of a GAME_STARTED line: the rice indices in
      ascending order joined by ':' with no trailing separator. */
  function RiceString(grains: seq<GrainType>): string
  {
    Join(Numerals(RiceList(grains, |grains|)), ":")
  }

  // ---------------------------------------------------------------------------
  // Match snapshots
  // ---------------------------------------------------------------------------

  /** The state of a GameSession that its rules read and write. */
  datatype Match = Match(
    player1: string,
    player2: string,
    grains: seq<GrainType>,
    powerups: seq<PowerupType>,
    scores: map<string, int>,
    clicks: map<string, set<int>>,
    riceCollected: set<int>,
    totalRice: int,
    ended: bool)

  /** The shape every session keeps from its constructor on: a full board and
      a score and a click set for each of the two players. */
  predicate WellFormed(m: Match)
  {
    && |m.grains| == TotalGrains && |m.powerups| == TotalGrains
    && m.scores.Keys == {m.player1, m.player2}
    && m.clicks.Keys == {m.player1, m.player2}
  }

  /** Cells a click can mark: rice cells and cells carrying a powerup. */
  function OneShotCells(grains: seq<GrainType>, powerups: seq<PowerupType>): set<int>
  {
    set i | 0 <= i < |grains| && i < |powerups| && (grains[i] == Rice || powerups[i] != NoPowerup)
  }

  /** The facts the match keeps between steps. */
  predicate Inv(m: Match)
  {
    && WellFormed(m)
    && m.totalRice == |RiceCells(m.grains)|
    && (forall p :: p in m.scores ==> 0 <= m.scores[p] < TargetRice + BuffBonus)
    && (!m.ended ==> forall p :: p in m.scores ==> m.scores[p] < TargetRice)
    && (forall p :: p in m.clicks ==> m.clicks[p] <= OneShotCells(m.grains, m.powerups))
    && m.riceCollected == (m.clicks[m.player1] + m.clicks[m.player2]) * RiceCells(m.grains)
    && (!m.ended ==> |m.riceCollected| < m.totalRice)
  }

  /** The session right after its constructor ran. */
  function NewMatch(player1: string, player2: string, p: Placement): Match
  {
    Match(player1, player2, GrainsOf(p), PowerupsOf(p),
          map[player1 := 0, player2 := 0], map[player1 := {}, player2 := {}],
          {}, |p.rice|, false)
  }

  /** The strictly higher scorer, or DRAW on a tie. */
  function Winner(m: Match): string
    requires m.player1 in m.scores && m.player2 in m.scores
  {
    if m.scores[m.player1] > m.scores[m.player2] then m.player1
    else if m.scores[m.player2] > m.scores[m.player1] then m.player2
    else Draw
  }

  function Max0(x: int): int
  {
    if x < 0 then 0 else x
  }

  /** The result tag of a click: RICE or CHAFF, suffixed _BUFF or _DEBUFF. */
  function GrainTag(kind: GrainType, powerup: PowerupType): string
  {
    (if kind == Rice then "RICE" else "CHAFF")
      + (match powerup case ScoreBuff => "_BUFF" case ScoreDebuff => "_DEBUFF" case NoPowerup => "")
  }

  datatype Ending = Continues | EndsWith(winner: string)

  /** A click is ignored without a trace, throws (null or unknown player), or
      scores; a scoring click may end the match, and then `next` is ended. */
  datatype ClickStep =
    | Ignored
    | Crashed
    | Scored(next: Match, kind: GrainType, powerup: PowerupType, score: int, ending: Ending)

  /** Finish a match with a winner if the ending says so. */
  function Settle(m: Match, ending: Ending): Match
  {
    if ending.EndsWith? then m.(ended := true) else m
  }

  /** The effect of a click that is not ignored, before any ending: rice
      scores +1 and is marked collected, chaff scores -1 clamped at 0, and a
      rice or powerup cell joins the clicker's set. */
  function Collect(m: Match, p: string, idx: int): Match
    requires WellFormed(m) && p in m.scores && 0 <= idx < TotalGrains
  {
    var kind := m.grains[idx];
    var oneShot := kind == Rice || m.powerups[idx] != NoPowerup;
    m.(scores := m.scores[p := if kind == Rice then m.scores[p] + 1 else Max0(m.scores[p] - 1)],
       clicks := if oneShot then m.clicks[p := m.clicks[p] + {idx}] else m.clicks,
       riceCollected := if kind == Rice then m.riceCollected + {idx} else m.riceCollected)
  }

  /** handlePlayerAction */
  function Click(m: Match, player: Option<string>, idx: int): ClickStep
    requires WellFormed(m)
  {
    if m.ended || idx < 0 || idx >= TotalGrains then Ignored
    else if player.None? || player.value !in m.scores then Crashed
    else
      var p := player.value;
      var kind := m.grains[idx];
      var powerup := m.powerups[idx];
      var mine := m.clicks[p];
      var oneShot := kind == Rice || powerup != NoPowerup;
      if oneShot && idx in mine then Ignored
      else
        var after := Collect(m, p, idx);
        var ending := Outcome(after, p);
        Scored(Settle(after, ending), kind, powerup, after.scores[p], ending)
  }

  /** How a scoring click by p ends the match, given the state after its
      bookkeeping: at the target score p wins; otherwise, once every rice
      cell is collected, the higher scorer does. */
  function Outcome(after: Match, p: string): Ending
    requires WellFormed(after) && p in after.scores
  {
    if after.scores[p] >= TargetRice then EndsWith(p)
    else if |after.riceCollected| >= after.totalRice then EndsWith(Winner(after))
    else Continues
  }

  /** A click that passes the guards is scored as Collect and Outcome say. */
  lemma ClickScores(m: Match, p: string, idx: int)
    requires WellFormed(m) && !m.ended && p in m.scores && 0 <= idx < TotalGrains
    requires !((m.grains[idx] == Rice || m.powerups[idx] != NoPowerup) && idx in m.clicks[p])
    ensures var after := Collect(m, p, idx);
      Click(m, Some(p), idx)
        == Scored(Settle(after, Outcome(after, p)), m.grains[idx], m.powerups[idx], after.scores[p], Outcome(after, p))
  {
  }

  /** Using an item is ignored once the match ended, throws on a null user
      (and on a buff by someone who is not a player), or applies. */
  datatype ItemStep =
    | ItemIgnored
    | ItemCrashed
    | Buffed(next: Match, score: int, ending: Ending)
    | Debuffed(next: Match, target: string, score: int)

  /** The opponent of a user: player2 for player1, player1 for anyone else. */
  function OpponentOf(m: Match, p: string): string
  {
    if p == m.player1 then m.player2 else m.player1
  }

  /** The match with one player's score replaced. */
  function Rescore(m: Match, p: string, score: int): Match
  {
    m.(scores := m.scores[p := score])
  }

  /** A player ends the match by reaching the target score. */
  function Reach(p: string, score: int): Ending
  {
    if score >= TargetRice then EndsWith(p) else Continues
  }

  /** A buff: three more points for its user, who wins on reaching the
      target score. */
  function BuffStep(m: Match, p: string): ItemStep
    requires p in m.scores
  {
    var score := m.scores[p] + BuffBonus;
    Buffed(Settle(Rescore(m, p, score), Reach(p, score)), score, Reach(p, score))
  }

  /** A debuff: two points fewer for the user's opponent, not below zero. */
  function DebuffStep(m: Match, p: string): ItemStep
    requires WellFormed(m)
  {
    var opp := OpponentOf(m, p);
    var score := Max0(m.scores[opp] - DebuffPenalty);
    Debuffed(Rescore(m, opp, score), opp, score)
  }

  /** handleUseBuffDebuff */
  function UseItem(m: Match, player: Option<string>, isBuff: bool): ItemStep
    requires WellFormed(m)
  {
    if m.ended then ItemIgnored
    else if player.None? then ItemCrashed
    else if isBuff then
      if player.value !in m.scores then ItemCrashed else BuffStep(m, player.value)
    else DebuffStep(m, player.value)
  }

  /** endGameByTimeout: the higher scorer wins, or DRAW. */
  function Timeout(m: Match): Ending
    requires WellFormed(m)
  {
    if m.ended then Continues else EndsWith(Winner(m))
  }

  datatype QuitStep =
    | QuitIgnored
    /** A null quitter: the match is already marked ended when it throws. */
    | QuitCrashed(next: Match)
    | QuitEnded(next: Match, winner: string)

  /** handlePlayerQuit: the player who did not quit wins. */
  function Quit(m: Match, quitter: Option<string>): QuitStep
  {
    if m.ended then QuitIgnored
    else if quitter.None? then QuitCrashed(m.(ended := true))
    else QuitEnded(m.(ended := true), if quitter.value == m.player1 then m.player2 else m.player1)
  }

  // ---------------------------------------------------------------------------
  // The board has the promised contents
  // ---------------------------------------------------------------------------

  lemma {:induction false} DistinctCard<T>(xs: seq<T>)
    requires Distinct(xs)
    ensures |set x | x in xs| == |xs|
    decreases |xs|
  {
    if |xs| > 0 {
      var init := xs[..|xs| - 1];
      assert Distinct(init);
      DistinctCard(init);
      var last := xs[|xs| - 1];
      assert (set x | x in xs) == (set x | x in init) + {last} by {
        forall x | x in xs ensures x in init || x == last {
          var k :| 0 <= k < |xs| && xs[k] == x;
          if k < |xs| - 1 { assert init[k] == x; }
        }
      }
      assert last !in init by {
        forall k | 0 <= k < |init| ensures init[k] != last { assert xs[k] == init[k]; }
      }
    }
  }

  lemma CellsOfDraws(p: Placement)
    requires ValidPlacement(p)
    ensures RiceCells(GrainsOf(p)) == set x | x in p.rice
    ensures PowerupCells(PowerupsOf(p), ScoreBuff) == set x | x in p.buffs
    ensures PowerupCells(PowerupsOf(p), ScoreDebuff) == set x | x in p.debuffs
  {
    var bd := p.buffs + p.debuffs;
    forall i, j | 0 <= i < |p.buffs| && 0 <= j < |p.debuffs| ensures p.buffs[i] != p.debuffs[j] {
      assert bd[i] == p.buffs[i] && bd[|p.buffs| + j] == p.debuffs[j];
    }
    forall x | x in p.rice ensures 0 <= x < TotalGrains { }
    forall x | x in p.buffs ensures 0 <= x < TotalGrains { }
    forall x | x in p.debuffs ensures 0 <= x < TotalGrains { }
  }

  /** A new board has 67 rice cells (the rest chaff), 5 buff cells and 3 debuff
      cells, whatever grain those powerups sit on. */
  lemma BoardCounts(p: Placement)
    requires ValidPlacement(p)
    ensures |RiceCells(GrainsOf(p))| == NumRice
    ensures |PowerupCells(PowerupsOf(p), ScoreBuff)| == NumBuffs
    ensures |PowerupCells(PowerupsOf(p), ScoreDebuff)| == NumDebuffs
    ensures PowerupCells(PowerupsOf(p), ScoreBuff) !! PowerupCells(PowerupsOf(p), ScoreDebuff)
  {
    CellsOfDraws(p);
    DistinctCard(p.rice);
    var bd := p.buffs + p.debuffs;
    assert Distinct(p.buffs) by {
      forall i, j | 0 <= i < j < |p.buffs| ensures p.buffs[i] != p.buffs[j] { assert bd[i] == p.buffs[i] && bd[j] == p.buffs[j]; }
    }
    assert Distinct(p.debuffs) by {
      forall i, j | 0 <= i < j < |p.debuffs| ensures p.debuffs[i] != p.debuffs[j] {
        assert bd[|p.buffs| + i] == p.debuffs[i] && bd[|p.buffs| + j] == p.debuffs[j];
      }
    }
    DistinctCard(p.buffs);
    DistinctCard(p.debuffs);
  }

  /** A freshly built session: both scores 0, no clicks, not ended, and
      totalRiceCount equal to the number of rice cells. */
  lemma NewMatchInv(player1: string, player2: string, p: Placement)
    requires ValidPlacement(p)
    ensures Inv(NewMatch(player1, player2, p))
    ensures NewMatch(player1, player2, p).totalRice == NumRice
  {
    BoardCounts(p);
  }

  // ---------------------------------------------------------------------------
  // Rice string
  // ---------------------------------------------------------------------------

  /** The rice indices below n, each once, in ascending order. */
  lemma {:induction false} RiceListFacts(grains: seq<GrainType>, n: nat)
    requires n <= |grains|
    ensures forall k :: 0 <= k < |RiceList(grains, n)| ==> 0 <= RiceList(grains, n)[k] < n && grains[RiceList(grains, n)[k]] == Rice
    ensures forall i, j :: 0 <= i < j < |RiceList(grains, n)| ==> RiceList(grains, n)[i] < RiceList(grains, n)[j]
    ensures forall c :: 0 <= c < n && grains[c] == Rice ==> c in RiceList(grains, n)
  {
    if n > 0 {
      RiceListFacts(grains, n - 1);
    }
  }

  lemma RiceListCells(grains: seq<GrainType>)
    ensures (set x | x in RiceList(grains, |grains|)) == RiceCells(grains)
  {
    RiceListFacts(grains, |grains|);
  }

  lemma NumeralsAppend(xs: seq<int>, x: int)
    ensures Numerals(xs + [x]) == Numerals(xs) + [IntToString(x)]
  {
  }

  // ---------------------------------------------------------------------------
  // The click rule
  // ---------------------------------------------------------------------------

  /** A click on an ended match or outside the board leaves no trace. */
  lemma ClickGuards(m: Match, player: Option<string>, idx: int)
    requires WellFormed(m)
    requires m.ended || idx < 0 || idx >= TotalGrains
    ensures Click(m, player, idx) == Ignored
  {
  }

  /** The first click of a player on a rice cell adds it to that player's click
      set and to the collected rice and raises that score by exactly one; a
      repeat by the same player is ignored. */
  lemma RiceClick(m: Match, p: string, idx: int)
    requires WellFormed(m) && !m.ended && 0 <= idx < TotalGrains && m.grains[idx] == Rice && p in m.scores
    ensures idx in m.clicks[p] ==> Click(m, Some(p), idx) == Ignored
    ensures idx !in m.clicks[p] ==>
      var st := Click(m, Some(p), idx);
      && st.Scored? && st.score == m.scores[p] + 1
      && st.next.scores == m.scores[p := m.scores[p] + 1]
      && st.next.clicks == m.clicks[p := m.clicks[p] + {idx}]
      && st.next.riceCollected == m.riceCollected + {idx}
  {
  }

  /** A rice cell the other player took can still be collected once by
      this player. */
  lemma RiceCellForEach(m: Match, p: string, q: string, idx: int)
    requires WellFormed(m) && !m.ended && 0 <= idx < TotalGrains && m.grains[idx] == Rice
    requires p in m.scores && q in m.scores && p != q
    requires idx in m.clicks[q] && idx !in m.clicks[p]
    ensures Click(m, Some(p), idx).Scored?
    ensures Click(m, Some(p), idx).score == m.scores[p] + 1
  {
  }

  /** A chaff click takes one point, never below zero; it is repeatable on a
      cell without a powerup and one-shot on a cell with one. */
  lemma ChaffClick(m: Match, p: string, idx: int)
    requires WellFormed(m) && !m.ended && 0 <= idx < TotalGrains && m.grains[idx] == Chaff && p in m.scores
    ensures m.powerups[idx] == NoPowerup ==>
      var st := Click(m, Some(p), idx);
      st.Scored? && st.score == Max0(m.scores[p] - 1) && st.next.clicks == m.clicks
      && st.next.riceCollected == m.riceCollected
    ensures m.powerups[idx] != NoPowerup ==>
      (idx in m.clicks[p] <==> Click(m, Some(p), idx) == Ignored)
    ensures m.powerups[idx] != NoPowerup && idx !in m.clicks[p] ==>
      var st := Click(m, Some(p), idx);
      st.Scored? && st.score == Max0(m.scores[p] - 1) && st.next.clicks == m.clicks[p := m.clicks[p] + {idx}]
      && st.next.riceCollected == m.riceCollected
  {
  }

  /** A click changes only the clicking player's score, and collecting a
      powerup cell scores exactly like its grain. */
  lemma ClickTouchesOnlyClicker(m: Match, p: string, idx: int)
    requires WellFormed(m)
    requires Click(m, Some(p), idx).Scored?
    ensures forall q :: q in m.scores && q != p ==> Click(m, Some(p), idx).next.scores[q] == m.scores[q]
    ensures Click(m, Some(p), idx).score ==
              if m.grains[idx] == Rice then m.scores[p] + 1 else Max0(m.scores[p] - 1)
  {
  }

  /** Reaching 50 ends the match with the clicker as winner; otherwise
      collecting the last rice cell ends it with the higher scorer. */
  lemma ClickEnding(m: Match, p: string, idx: int)
    requires Inv(m)
    requires Click(m, Some(p), idx).Scored?
    ensures var st := Click(m, Some(p), idx);
      && (st.score >= TargetRice ==> st.ending == EndsWith(p))
      && (st.score < TargetRice && st.next.riceCollected == RiceCells(m.grains) ==>
            st.ending == EndsWith(Winner(st.next)))
      && (st.score < TargetRice && st.next.riceCollected != RiceCells(m.grains) ==> st.ending == Continues)
      && (st.next.ended <==> st.ending.EndsWith?)
  {
    var st := Click(m, Some(p), idx);
    var after := st.next.(ended := false);
    assert after.riceCollected <= RiceCells(m.grains);
    CollectedAll(after.riceCollected, RiceCells(m.grains));
  }

  lemma CollectedAll(collected: set<int>, all: set<int>)
    requires collected <= all
    ensures |collected| >= |all| <==> collected == all
  {
    var rest := all - collected;
    assert all == rest + collected && rest !! collected;
    SubsetCard(collected, all);
    if |collected| >= |all| {
      assert rest == {};
    }
  }

  lemma {:induction false} SubsetCard<T>(a: set<T>, b: set<T>)
    requires a <= b
    ensures |a| <= |b|
    decreases a
  {
    if a != {} {
      var x :| x in a;
      SubsetCard(a - {x}, b - {x});
    }
  }

  lemma CollectKeeps(m: Match, p: string, idx: int)
    requires WellFormed(m) && p in m.scores && 0 <= idx < TotalGrains
    requires forall q :: q in m.scores ==> 0 <= m.scores[q] < TargetRice
    requires forall q :: q in m.clicks ==> m.clicks[q] <= OneShotCells(m.grains, m.powerups)
    requires m.riceCollected == (m.clicks[m.player1] + m.clicks[m.player2]) * RiceCells(m.grains)
    requires !((m.grains[idx] == Rice || m.powerups[idx] != NoPowerup) && idx in m.clicks[p])
    ensures var a := Collect(m, p, idx);
      && WellFormed(a) && a.grains == m.grains && a.powerups == m.powerups && a.totalRice == m.totalRice
      && (forall q :: q in a.scores ==> 0 <= a.scores[q] <= TargetRice)
      && (forall q :: q in a.clicks ==> a.clicks[q] <= OneShotCells(a.grains, a.powerups))
      && a.riceCollected == (a.clicks[a.player1] + a.clicks[a.player2]) * RiceCells(a.grains)
  {
    var a := Collect(m, p, idx);
    var cells := OneShotCells(m.grains, m.powerups);
    assert a.clicks[p] <= cells;
    assert forall q :: q in a.clicks && q != p ==> a.clicks[q] == m.clicks[q];
    assert forall q :: q in a.scores && q != p ==> a.scores[q] == m.scores[q];
    CollectRice(m, p, idx);
  }

  lemma CollectRice(m: Match, p: string, idx: int)
    requires WellFormed(m) && p in m.scores && 0 <= idx < TotalGrains
    requires m.riceCollected == (m.clicks[m.player1] + m.clicks[m.player2]) * RiceCells(m.grains)
    ensures var a := Collect(m, p, idx);
      a.riceCollected == (a.clicks[a.player1] + a.clicks[a.player2]) * RiceCells(a.grains)
  {
    var a := Collect(m, p, idx);
    var rice := RiceCells(m.grains);
    var before := m.clicks[m.player1] + m.clicks[m.player2];
    var now := a.clicks[a.player1] + a.clicks[a.player2];
    if m.grains[idx] == Rice {
      assert idx in rice;
      assert now == before + {idx};
    } else if m.powerups[idx] != NoPowerup {
      assert idx !in rice;
      assert now == before + {idx};
    } else {
      assert now == before;
    }
  }

  /** Every click step keeps the match invariant. */
  lemma ClickInv(m: Match, player: Option<string>, idx: int)
    requires Inv(m)
    requires Click(m, player, idx).Scored?
    ensures Inv(Click(m, player, idx).next)
  {
    var p := player.value;
    CollectKeeps(m, p, idx);
    var a := Collect(m, p, idx);
    assert Click(m, player, idx).next == Settle(a, Outcome(a, p));
    assert forall q :: q in a.scores && q != p ==> a.scores[q] == m.scores[q];
  }

  // ---------------------------------------------------------------------------
  // Items, timeout and quit
  // ---------------------------------------------------------------------------

  /** A buff adds exactly three to its user and leaves the opponent alone; a
      debuff sets the opponent to max(s-2,0) and leaves the user alone. No
      inventory is consulted: the item applies whenever the match runs. */
  lemma ItemEffects(m: Match, p: string, isBuff: bool)
    requires WellFormed(m) && !m.ended && p in m.scores
    ensures var st := UseItem(m, Some(p), isBuff);
      if isBuff then
        && st.Buffed? && st.score == m.scores[p] + BuffBonus
        && st.next.scores == m.scores[p := m.scores[p] + BuffBonus]
        && (st.score >= TargetRice <==> st.ending == EndsWith(p))
      else
        && st.Debuffed? && st.target == OpponentOf(m, p) && st.score == Max0(m.scores[st.target] - DebuffPenalty)
        && (st.target != p ==> st.next.scores[p] == m.scores[p])
        && st.next.scores == m.scores[st.target := st.score]
  {
  }

  lemma ItemInv(m: Match, player: Option<string>, isBuff: bool)
    requires Inv(m)
    ensures UseItem(m, player, isBuff).Buffed? ==> Inv(UseItem(m, player, isBuff).next)
    ensures UseItem(m, player, isBuff).Debuffed? ==> Inv(UseItem(m, player, isBuff).next)
  {
    var st := UseItem(m, player, isBuff);
    if st.Buffed? || st.Debuffed? {
      var p := player.value;
      var q := if isBuff then p else OpponentOf(m, p);
      assert st.next.scores == m.scores[q := st.score];
      assert forall r :: r in st.next.scores && r != q ==> st.next.scores[r] == m.scores[r];
    }
  }

  /** Once ended, a match ignores clicks, items, the timer and quits. */
  lemma EndedIsFinal(m: Match, player: Option<string>, idx: int, isBuff: bool)
    requires WellFormed(m) && m.ended
    ensures Click(m, player, idx) == Ignored
    ensures UseItem(m, player, isBuff) == ItemIgnored
    ensures Timeout(m) == Continues
    ensures Quit(m, player) == QuitIgnored
  {
  }

  /** Every step that ends the match starts from a running match: the ended
      flag goes from false to true at most once. */
  lemma EndsOnlyOnce(m: Match, player: Option<string>, idx: int, isBuff: bool)
    requires WellFormed(m)
    ensures Click(m, player, idx).Scored? && Click(m, player, idx).ending.EndsWith? ==> !m.ended
    ensures UseItem(m, player, isBuff).Buffed? && UseItem(m, player, isBuff).ending.EndsWith? ==> !m.ended
    ensures Timeout(m).EndsWith? ==> !m.ended
    ensures !Quit(m, player).QuitIgnored? ==> !m.ended
  {
  }

  /** On a timeout the strictly higher scorer wins, otherwise it is a draw;
      read apart only while no player is named DRAW (see TieNamesDrawPlayer). */
  lemma TimeoutWinner(m: Match)
    requires WellFormed(m) && !m.ended && m.player1 != Draw && m.player2 != Draw
    ensures Timeout(m) == EndsWith(m.player1) <==> m.scores[m.player1] > m.scores[m.player2]
    ensures Timeout(m) == EndsWith(m.player2) <==> m.scores[m.player2] > m.scores[m.player1]
    ensures Timeout(m) == EndsWith(Draw) <==> m.scores[m.player1] == m.scores[m.player2]
  {
  }

  /** On a quit the player who stayed wins. */
  lemma QuitWinner(m: Match, quitter: string)
    requires !m.ended && m.player1 != m.player2
    requires quitter == m.player1 || quitter == m.player2
    ensures Quit(m, Some(quitter)).QuitEnded?
    ensures Quit(m, Some(quitter)).winner != quitter
    ensures Quit(m, Some(quitter)).winner in {m.player1, m.player2}
  {
  }

  /** Nothing reserves the name DRAW for users, so a player named DRAW is
      the winner a tied timeout names. */
  lemma TieNamesDrawPlayer(m: Match)
    requires WellFormed(m) && !m.ended && m.player1 == Draw
    requires m.scores[m.player1] == m.scores[m.player2]
    ensures Timeout(m) == EndsWith(m.player1)
  {
  }

  /** An invitation accepted by its own sender starts a match against
      oneself; quitting it names the quitter as the winner. */
  lemma SelfMatchQuitterWins(m: Match, quitter: string)
    requires !m.ended && m.player1 == quitter && m.player2 == quitter
    ensures Quit(m, Some(quitter)) == QuitEnded(m.(ended := true), quitter)
  {
  }

  lemma EndInv(m: Match)
    requires Inv(m)
    ensures Inv(m.(ended := true))
  {
  }
}
