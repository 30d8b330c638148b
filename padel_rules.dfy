/** The older scoring engine `handlePointScored` (src/lib/padel-rules.ts).
    It differs from the current engine in four ways: 40-40 always gives "AD"
    (golden point is ignored), a tie-break point only counts (no game is
    added), a set is never won 7-6 outside the tie-break branch, and the
    match is never finished (`checkMatchWin` answers false). Its side
    argument is a `ScorerTag`: whatever is not "pair_a" is read as pair B,
    except in the tie-break branch of `hasWonSet`, which compares with both
    names. `setScore` and `winGame` are the same code as the current
    engine's and are reused from `PadelScoring`. */
module PadelRules {
  import opened PadelTypes
  import PadelScoring

  // ---------------------------------------------------------------------
  // Specification functions
  // ---------------------------------------------------------------------

  /** `scorer === "pair_a" ? <pair A> : <pair B>`. */
  function ScorerSideOf(t: ScorerTag): Side {
    if t == Pair(PairA) then PairA else PairB
  }

  /** `otherSide`: "pair_b" for "pair_a", and "pair_a" for anything else,
      so it is always the opponent of the side the tag is read as. */
  function OtherSide(t: ScorerTag): (o: Side)
    ensures o == ScorerSideOf(t).Opponent()
    ensures t.Pair? ==> o == t.side.Opponent()
  {
    if t == Pair(PairA) then PairB else PairA
  }

  /** `handleStandardPoint`: deuce gives "AD" whatever the golden-point
      setting, then advantage, then the ladder. */
  function AfterStandardPoint(s: MatchSnapshot, scorer: Side): MatchSnapshot {
    var receiver := scorer.Opponent();
    var scoreScorer := s.Score(scorer);
    var scoreReceiver := s.Score(receiver);
    if scoreScorer == Forty && scoreReceiver == Forty then PadelScoring.WithScore(s, scorer, Ad)
    else if scoreScorer == Ad then PadelScoring.AfterGameWon(s, scorer)
    else if scoreReceiver == Ad then PadelScoring.WithScore(s, receiver, Forty)
    else if scoreScorer == Forty then PadelScoring.AfterGameWon(s, scorer)
    else PadelScoring.WithScore(s, scorer, NextPoint(scoreScorer))
  }

  /** `handleTieBreakPoint`: the scorer's count goes up by one. */
  function AfterTieBreakPoint(s: MatchSnapshot, scorer: Side): MatchSnapshot {
    PadelScoring.WithScore(s, scorer, ScoreOf(ParseOrZero(s.Score(scorer)) + 1))
  }

  /** The copy after the point itself, before the set check. */
  function Played(s: MatchSnapshot, t: ScorerTag): MatchSnapshot {
    if s.isTieBreak then AfterTieBreakPoint(s, ScorerSideOf(t))
    else AfterStandardPoint(s, ScorerSideOf(t))
  }

  /** `hasWonSet`: in a tie-break both counts must parse, differ by 2 or
      more, and the named pair must have 7 or more; otherwise exactly 6
      games against at most 4, or 7-5. */
  function HasWonSet(s: MatchSnapshot, t: ScorerTag): bool {
    if s.isTieBreak then
      var pA := ParseInt(s.pairAScore);
      var pB := ParseInt(s.pairBScore);
      && pA.Some? && pB.Some?
      && (if pA.value >= pB.value then pA.value - pB.value else pB.value - pA.value) >= 2
      && ((t == Pair(PairA) && pA.value >= 7) || (t == Pair(PairB) && pB.value >= 7))
    else
      var side := ScorerSideOf(t);
      var myGames := s.Games(side);
      var otherGames := s.Games(side.Opponent());
      (myGames == 6 && otherGames <= 4) || (myGames == 7 && otherGames == 5)
  }

  /** The reset for the next set, applied after every won set because
      `checkMatchWin` always answers false. */
  function NextSet(p: MatchSnapshot): MatchSnapshot {
    p.(currentSetIdx := p.currentSetIdx + 1, pairAGames := 0, pairBGames := 0,
       pairAScore := Zero, pairBScore := Zero, isTieBreak := false)
  }

  /** The pre-point flags: in a tie-break a count of 6 or more with a lead
      is both game and set point; otherwise game point by score and set
      point for a game-point holder at 5 games against at most 4 or at 6-5.
      Match point is never raised. */
  function CalculateFlags(c: MatchSnapshot): Flags {
    if c.isTieBreak then
      var pa := ParseOrZero(c.pairAScore);
      var pb := ParseOrZero(c.pairBScore);
      var gp := (pa >= 6 && pa - pb >= 1) || (pb >= 6 && pb - pa >= 1);
      Flags(gp, gp, false)
    else
      var sa := c.pairAScore;
      var sb := c.pairBScore;
      var gpA := (sa == Forty && sb != Forty && sb != Ad) || sa == Ad;
      var gpB := (sb == Forty && sa != Forty && sa != Ad) || sb == Ad;
      var setA := gpA && ((c.pairAGames == 5 && c.pairBGames <= 4) || (c.pairAGames == 6 && c.pairBGames == 5));
      var setB := gpB && ((c.pairBGames == 5 && c.pairAGames <= 4) || (c.pairBGames == 6 && c.pairAGames == 5));
      Flags(gpA || gpB, setA || setB, false)
  }

  /** `handlePointScored` as a function of its inputs. */
  function PointTransition(current: MatchSnapshot, scorer: ScorerTag, pointMethod: Option<PointMethod>)
    : (r: Result<PointOutcome, EngineError>)
    ensures r.Err? <==> current.winnerSide.Some?
  {
    if current.winnerSide.Some? then Err(MatchAlreadyFinished)
    else
      var flags := CalculateFlags(current);
      var played := Played(current, scorer);
      var won := HasWonSet(played, scorer);
      var next := if won then NextSet(played) else played;
      Ok(PointOutcome(
        next,
        PointHistory(current.currentSetIdx, current.pairAGames + current.pairBGames + 1, 0,
          scorer, pointMethod, None, None, next.pairAScore, next.pairBScore,
          flags.isGamePoint, flags.isSetPoint, flags.isMatchPoint),
        if won then Some(PadelScoring.SetRecord(played)) else None))
  }

  // ---------------------------------------------------------------------
  // The engine as the source runs it: helpers updating the copy in place
  // ---------------------------------------------------------------------

  method HandleStandardPoint(state: SnapshotCopy, scorer: ScorerTag, receiver: Side)
    requires receiver == OtherSide(scorer)
    modifies state
    ensures state.Value() == AfterStandardPoint(old(state.Value()), ScorerSideOf(scorer))
  {
    var side := ScorerSideOf(scorer);
    var scoreScorer := if scorer == Pair(PairA) then state.pairAScore else state.pairBScore;
    var scoreReceiver := if receiver == PairA then state.pairAScore else state.pairBScore;

    if scoreScorer == Forty && scoreReceiver == Forty {
      PadelScoring.SetScore(state, side, Ad);
      return;
    }
    if scoreScorer == Ad {
      PadelScoring.WinGame(state, side);
      return;
    }
    if scoreReceiver == Ad {
      PadelScoring.SetScore(state, receiver, Forty);
      return;
    }
    if scoreScorer == Forty {
      PadelScoring.WinGame(state, side);
      return;
    }
    PadelScoring.SetScore(state, side, NextPoint(scoreScorer));
  }

  method HandleTieBreakPoint(state: SnapshotCopy, scorer: ScorerTag)
    modifies state
    ensures state.Value() == AfterTieBreakPoint(old(state.Value()), ScorerSideOf(scorer))
  {
    var currentPoints := ParseOrZero(if scorer == Pair(PairA) then state.pairAScore else state.pairBScore);
    var newPoints := currentPoints + 1;
    PadelScoring.SetScore(state, ScorerSideOf(scorer), ScoreOf(newPoints));
  }

  /** Step 3 of `handlePointScored`: record a won set and reset the copy. */
  method CloseSetIfWon(next: SnapshotCopy, scorer: ScorerTag) returns (setCompleted: Option<CompletedSet>)
    modifies next
    ensures var p := old(next.Value());
            && setCompleted == (if HasWonSet(p, scorer) then Some(PadelScoring.SetRecord(p)) else None)
            && next.Value() == (if HasWonSet(p, scorer) then NextSet(p) else p)
  {
    setCompleted := None;
    if HasWonSet(next.Value(), scorer) {
      setCompleted := Some(CompletedSet(next.currentSetIdx, next.pairAGames, next.pairBGames,
        if next.isTieBreak then ParseInt(next.pairAScore) else None,
        if next.isTieBreak then ParseInt(next.pairBScore) else None));
      next.currentSetIdx := next.currentSetIdx + 1;
      next.pairAGames := 0;
      next.pairBGames := 0;
      next.pairAScore := Zero;
      next.pairBScore := Zero;
      next.isTieBreak := false;
    }
  }

  /** `handlePointScored`: the input is a value, so it is left unchanged;
      the result is the transition function's. */
  method HandlePointScored(current: MatchSnapshot, scorerSide: ScorerTag, pointMethod: Option<PointMethod>)
    returns (r: Result<PointOutcome, EngineError>)
    ensures r == PointTransition(current, scorerSide, pointMethod)
  {
    var next := new SnapshotCopy(current);

    if next.winnerSide.Some? {
      return Err(MatchAlreadyFinished);
    }

    var flags := CalculateFlags(current);
    var otherSide := OtherSide(scorerSide);

    if next.isTieBreak {
      HandleTieBreakPoint(next, scorerSide);
    } else {
      HandleStandardPoint(next, scorerSide, otherSide);
    }
    ghost var played := next.Value();
    assert played == Played(current, scorerSide);

    var setCompleted := CloseSetIfWon(next, scorerSide);

    r := Ok(PointOutcome(
      next.Value(),
      PointHistory(current.currentSetIdx, current.pairAGames + current.pairBGames + 1, 0,
        scorerSide, pointMethod, None, None, next.pairAScore, next.pairBScore,
        flags.isGamePoint, flags.isSetPoint, flags.isMatchPoint),
      setCompleted));
  }
}
