/** The current scoring engine (src/utils/padelScoring.ts, `PadelEngine`).
    `ProcessPoint` copies the snapshot into a `SnapshotCopy` and lets the
    helpers update that copy field by field, as the source does; each helper
    is specified by a pure function of the copy's old value, and
    `PointTransition` is the whole transition as a function. */
module PadelScoring {
  import opened PadelTypes

  // ---------------------------------------------------------------------
  // Specification functions
  // ---------------------------------------------------------------------

  /** `setScore`: the side's score becomes `v`; nothing else changes. */
  function WithScore(s: MatchSnapshot, side: Side, v: Score): (r: MatchSnapshot)
    ensures r.Score(side) == v && r.Score(side.Opponent()) == s.Score(side.Opponent())
    ensures r.(pairAScore := s.pairAScore, pairBScore := s.pairBScore) == s
  {
    if side == PairA then s.(pairAScore := v) else s.(pairBScore := v)
  }

  /** One more game for `side`; nothing else changes. */
  function AddGame(s: MatchSnapshot, side: Side): (r: MatchSnapshot)
    ensures r.Games(side) == s.Games(side) + 1
    ensures r.Games(side.Opponent()) == s.Games(side.Opponent())
    ensures r.(pairAGames := s.pairAGames, pairBGames := s.pairBGames) == s
  {
    if side == PairA then s.(pairAGames := s.pairAGames + 1)
    else s.(pairBGames := s.pairBGames + 1)
  }

  /** `winGame`: both scores return to "0", the side gains a game, and the
      tie-break starts when that makes the games 6-6. */
  function AfterGameWon(s: MatchSnapshot, side: Side): (r: MatchSnapshot)
    ensures r.pairAScore == Zero && r.pairBScore == Zero
    ensures r.Games(side) == s.Games(side) + 1
    ensures r.Games(side.Opponent()) == s.Games(side.Opponent())
    ensures r.isTieBreak == (s.isTieBreak || (r.pairAGames == 6 && r.pairBGames == 6))
    ensures r == s.(pairAScore := Zero, pairBScore := Zero, pairAGames := r.pairAGames,
                    pairBGames := r.pairBGames, isTieBreak := r.isTieBreak)
  {
    var won := AddGame(s.(pairAScore := Zero, pairBScore := Zero), side);
    if won.pairAGames == 6 && won.pairBGames == 6 then won.(isTieBreak := true) else won
  }

  /** `applyStandardGameLogic`: golden point, deuce and advantage, then the
      ladder 0/15/30/40. */
  function AfterStandardPoint(s: MatchSnapshot, scorer: Side): MatchSnapshot {
    var receiver := scorer.Opponent();
    var scoreScorer := s.Score(scorer);
    var scoreReceiver := s.Score(receiver);
    var isDeuce := scoreScorer == Forty && scoreReceiver == Forty;
    if s.hasGoldPoint && isDeuce then AfterGameWon(s, scorer)
    else if !s.hasGoldPoint && isDeuce then WithScore(s, scorer, Ad)
    else if !s.hasGoldPoint && scoreScorer == Ad then AfterGameWon(s, scorer)
    else if !s.hasGoldPoint && scoreReceiver == Ad then WithScore(s, receiver, Forty)
    else if scoreScorer == Forty then AfterGameWon(s, scorer)
    else WithScore(s, scorer, NextPoint(scoreScorer))
  }

  /** `applyTieBreakLogic`: the scorer's count goes up by one; reaching 7 or
      more with a lead of 2 or more also adds a game to the scorer. */
  function AfterTieBreakPoint(s: MatchSnapshot, scorer: Side): MatchSnapshot {
    var newPoints := ParseOrZero(s.Score(scorer)) + 1;
    var scored := WithScore(s, scorer, ScoreOf(newPoints));
    var otherPoints := ParseOrZero(scored.Score(scorer.Opponent()));
    if newPoints >= 7 && newPoints - otherPoints >= 2 then AddGame(scored, scorer) else scored
  }

  /** The copy after the point itself, before the set check. */
  function Played(s: MatchSnapshot, scorer: Side): MatchSnapshot {
    if s.isTieBreak then AfterTieBreakPoint(s, scorer) else AfterStandardPoint(s, scorer)
  }

  /** `hasWonSet`. In a tie-break both counts must parse (NaN compares false),
      the side must have 7 or more and the counts must differ by 2 or more;
      otherwise 6 or more games against at most 4, 7-5 or 7-6. */
  function HasWonSet(s: MatchSnapshot, side: Side): bool {
    if s.isTieBreak then
      var pA := ParseInt(s.pairAScore);
      var pB := ParseInt(s.pairBScore);
      && pA.Some? && pB.Some?
      && (if pA.value >= pB.value then pA.value - pB.value else pB.value - pA.value) >= 2
      && (if side == PairA then pA.value >= 7 else pB.value >= 7)
    else
      var myGames := s.Games(side);
      var otherGames := s.Games(side.Opponent());
      || (myGames >= 6 && otherGames <= 4)
      || (myGames == 7 && otherGames == 5)
      || (myGames == 7 && otherGames == 6)
  }

  /** `checkMatchWin`: the engine only declares a match won in set 3. */
  function CheckMatchWin(s: MatchSnapshot, side: Side): bool {
    s.currentSetIdx == 3
  }

  /** The completed-set record built from the copy after the point. */
  function SetRecord(p: MatchSnapshot): CompletedSet {
    CompletedSet(p.currentSetIdx, p.pairAGames, p.pairBGames,
      if p.isTieBreak then ParseInt(p.pairAScore) else None,
      if p.isTieBreak then ParseInt(p.pairBScore) else None)
  }

  /** After a won set: the match is finished, or the next set starts at 0-0. */
  function AfterSetWon(p: MatchSnapshot, scorer: Side): MatchSnapshot {
    if CheckMatchWin(p, scorer) then p.(winnerSide := Some(scorer), status := Finished)
    else p.(currentSetIdx := p.currentSetIdx + 1, pairAGames := 0, pairBGames := 0,
            pairAScore := Zero, pairBScore := Zero, isTieBreak := false)
  }

  datatype GamePointOwner = NoOwner | Owner(side: Side) | BothSides

  /** Who would win the current game with the next point, read from the
      snapshot before the point. */
  function GamePointOwnerOf(c: MatchSnapshot): GamePointOwner {
    if c.isTieBreak then
      var pa := ParseOrZero(c.pairAScore);
      var pb := ParseOrZero(c.pairBScore);
      if pa >= 6 && pa - pb >= 1 then Owner(PairA)
      else if pb >= 6 && pb - pa >= 1 then Owner(PairB)
      else NoOwner
    else
      var sa := c.pairAScore;
      var sb := c.pairBScore;
      if c.hasGoldPoint && sa == Forty && sb == Forty then BothSides
      else if (sa == Forty && sb != Forty && sb != Ad) || sa == Ad then Owner(PairA)
      else if (sb == Forty && sa != Forty && sa != Ad) || sb == Ad then Owner(PairB)
      else NoOwner
  }

  /** Whether winning this game could close the set for `side`. */
  function CanWinSet(c: MatchSnapshot, side: Side): bool {
    var myGames := c.Games(side);
    myGames >= 5 && (myGames > c.Games(side.Opponent()) || myGames == 6)
  }

  /** `calculateFlags`: game point, then set point for each side holding game
      point, then match point for such a side with a set already won. */
  function CalculateFlags(c: MatchSnapshot): Flags {
    var owner := GamePointOwnerOf(c);
    var setA := CanWinSet(c, PairA) && (owner == BothSides || owner == Owner(PairA));
    var setB := CanWinSet(c, PairB) && (owner == BothSides || owner == Owner(PairB));
    Flags(owner != NoOwner, setA || setB,
      (setA && c.pairASets >= 1) || (setB && c.pairBSets >= 1))
  }

  /** `processPoint` as a function of its inputs. */
  function PointTransition(current: MatchSnapshot, scorer: Side, pointMethod: PointMethod,
                           stroke: Option<Stroke>, isNetPoint: Option<bool>)
    : (r: Result<PointOutcome, EngineError>)
    ensures r.Err? <==> current.winnerSide.Some?
  {
    if current.winnerSide.Some? then Err(MatchAlreadyFinished)
    else
      var flags := CalculateFlags(current);
      var played := Played(current, scorer);
      var won := HasWonSet(played, scorer);
      var next := if won then AfterSetWon(played, scorer) else played;
      Ok(PointOutcome(
        next,
        PointHistory(current.currentSetIdx, current.pairAGames + current.pairBGames + 1, 0,
          Pair(scorer), Some(pointMethod), stroke, isNetPoint, next.pairAScore, next.pairBScore,
          flags.isGamePoint, flags.isSetPoint, flags.isMatchPoint),
        if won then Some(SetRecord(played)) else None))
  }

  // ---------------------------------------------------------------------
  // The engine as the source runs it: helpers updating the copy in place
  // ---------------------------------------------------------------------

  method SetScore(state: SnapshotCopy, side: Side, val: Score)
    modifies state
    ensures state.Value() == WithScore(old(state.Value()), side, val)
  {
    if side == PairA {
      state.pairAScore := val;
    } else {
      state.pairBScore := val;
    }
  }

  method WinGame(state: SnapshotCopy, side: Side)
    modifies state
    ensures state.Value() == AfterGameWon(old(state.Value()), side)
  {
    state.pairAScore := Zero;
    state.pairBScore := Zero;
    if side == PairA {
      state.pairAGames := state.pairAGames + 1;
    } else {
      state.pairBGames := state.pairBGames + 1;
    }
    if state.pairAGames == 6 && state.pairBGames == 6 {
      state.isTieBreak := true;
    }
  }

  method ApplyStandardGameLogic(state: SnapshotCopy, scorer: Side, receiver: Side)
    requires receiver == scorer.Opponent()
    modifies state
    ensures state.Value() == AfterStandardPoint(old(state.Value()), scorer)
  {
    var scoreScorer := if scorer == PairA then state.pairAScore else state.pairBScore;
    var scoreReceiver := if receiver == PairA then state.pairAScore else state.pairBScore;
    var isDeuce := scoreScorer == Forty && scoreReceiver == Forty;

    if state.hasGoldPoint && isDeuce {
      WinGame(state, scorer);
      return;
    }

    if !state.hasGoldPoint {
      if isDeuce {
        SetScore(state, scorer, Ad);
        return;
      }
      if scoreScorer == Ad {
        WinGame(state, scorer);
        return;
      }
      if scoreReceiver == Ad {
        SetScore(state, receiver, Forty);
        return;
      }
    }

    if scoreScorer == Forty {
      WinGame(state, scorer);
      return;
    }

    SetScore(state, scorer, NextPoint(scoreScorer));
  }

  method ApplyTieBreakLogic(state: SnapshotCopy, scorer: Side, receiver: Side)
    requires receiver == scorer.Opponent()
    modifies state
    ensures state.Value() == AfterTieBreakPoint(old(state.Value()), scorer)
  {
    var currentPoints := ParseOrZero(if scorer == PairA then state.pairAScore else state.pairBScore);
    var newPoints: int := currentPoints + 1;
    SetScore(state, scorer, ScoreOf(newPoints));

    var otherPoints: int := ParseOrZero(if receiver == PairA then state.pairAScore else state.pairBScore);
    if newPoints >= 7 && newPoints - otherPoints >= 2 {
      if scorer == PairA {
        state.pairAGames := state.pairAGames + 1;
      } else {
        state.pairBGames := state.pairBGames + 1;
      }
    }
  }

  /** Step 4 of `processPoint`: when the point won the set, record it and
      either finish the match or reset the copy for the next set. */
  method CloseSetIfWon(next: SnapshotCopy, winnerSide: Side) returns (setCompleted: Option<CompletedSet>)
    modifies next
    ensures var p := old(next.Value());
            && setCompleted == (if HasWonSet(p, winnerSide) then Some(SetRecord(p)) else None)
            && next.Value() == (if HasWonSet(p, winnerSide) then AfterSetWon(p, winnerSide) else p)
  {
    setCompleted := None;
    if HasWonSet(next.Value(), winnerSide) {
      setCompleted := Some(CompletedSet(next.currentSetIdx, next.pairAGames, next.pairBGames,
        if next.isTieBreak then ParseInt(next.pairAScore) else None,
        if next.isTieBreak then ParseInt(next.pairBScore) else None));

      if CheckMatchWin(next.Value(), winnerSide) {
        next.winnerSide := Some(winnerSide);
        next.status := Finished;
      } else {
        next.currentSetIdx := next.currentSetIdx + 1;
        next.pairAGames := 0;
        next.pairBGames := 0;
        next.pairAScore := Zero;
        next.pairBScore := Zero;
        next.isTieBreak := false;
      }
    }
  }

  /** `PadelEngine.processPoint`: the input is a value, so it is left
      unchanged; the result is the transition function's. */
  method ProcessPoint(current: MatchSnapshot, winnerSide: Side, pointMethod: PointMethod,
                      stroke: Option<Stroke>, isNetPoint: Option<bool>)
    returns (r: Result<PointOutcome, EngineError>)
    ensures r == PointTransition(current, winnerSide, pointMethod, stroke, isNetPoint)
  {
    var next := new SnapshotCopy(current);

    if next.winnerSide.Some? {
      return Err(MatchAlreadyFinished);
    }

    var flags := CalculateFlags(current);
    var otherSide := winnerSide.Opponent();

    if next.isTieBreak {
      ApplyTieBreakLogic(next, winnerSide, otherSide);
    } else {
      ApplyStandardGameLogic(next, winnerSide, otherSide);
    }
    ghost var played := next.Value();
    assert played == Played(current, winnerSide);

    var setCompleted := CloseSetIfWon(next, winnerSide);

    r := Ok(PointOutcome(
      next.Value(),
      PointHistory(current.currentSetIdx, current.pairAGames + current.pairBGames + 1, 0,
        Pair(winnerSide), Some(pointMethod), stroke, isNetPoint, next.pairAScore, next.pairBScore,
        flags.isGamePoint, flags.isSetPoint, flags.isMatchPoint),
      setCompleted));
  }
}
