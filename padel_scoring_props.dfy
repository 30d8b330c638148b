/** Properties of the current scoring engine (src/utils/padelScoring.ts),
    stated about the transition function that `PadelScoring.ProcessPoint` is
    proved to compute. */
module PadelScoringProperties {
  import opened PadelTypes
  import opened PadelScoring

  /** The snapshot after `scorer` wins a point of a match not yet won. */
  function After(c: MatchSnapshot, scorer: Side): MatchSnapshot
    requires c.winnerSide.None?
  {
    PointTransition(c, scorer, Winner, None, None).value.nextSnapshot
  }

  /** Winning the next point would win the current game for `side`. */
  predicate WinsGame(c: MatchSnapshot, side: Side) {
    Played(c, side).Games(side) == c.Games(side) + 1
  }

  /** Winning the next point would win the current set for `side`. */
  predicate ClosesSet(c: MatchSnapshot, side: Side) {
    HasWonSet(Played(c, side), side)
  }

  /** Under golden point no "AD" is held. */
  predicate GoldenConsistent(c: MatchSnapshot) {
    c.hasGoldPoint ==> NoAdvantage(c)
  }

  /** A finished set's record is a legal padel set score for the winner:
      6 games against at most 4, 7-5, or 7-6 with tie-break counts that show
      at least 7 points and a lead of at least 2. */
  predicate LegalSetScore(r: CompletedSet, w: Side) {
    var mine := r.Games(w);
    var theirs := r.Games(w.Opponent());
    if r.tieBreakPairAPoints.Some? || r.tieBreakPairBPoints.Some? then
      && mine == 7 && theirs == 6
      && r.TieBreakPoints(w).Some? && r.TieBreakPoints(w.Opponent()).Some?
      && r.TieBreakPoints(w).value >= 7
      && r.TieBreakPoints(w).value - r.TieBreakPoints(w.Opponent()).value >= 2
    else
      (mine == 6 && theirs <= 4) || (mine == 7 && theirs == 5)
  }

  // ---------------------------------------------------------------------
  // The game: ladder, deuce, advantage, golden point
  // ---------------------------------------------------------------------

  /** Outside a tie-break, a point below 40 climbs exactly one rung of the
      ladder 0/15/30/40, unless the opponent holds "AD" without golden point. */
  lemma LadderStep(c: MatchSnapshot, scorer: Side)
    requires !c.isTieBreak
    requires c.Score(scorer) == Zero || c.Score(scorer) == Fifteen || c.Score(scorer) == Thirty
    requires c.hasGoldPoint || c.Score(scorer.Opponent()) != Ad
    ensures AfterStandardPoint(c, scorer) == WithScore(c, scorer, NextPoint(c.Score(scorer)))
    ensures LadderRank(AfterStandardPoint(c, scorer).Score(scorer)) == LadderRank(c.Score(scorer)) + 1
  {
    NextPointClimbsOneRung(c.Score(scorer));
  }

  /** A point at 40 against an opponent below 40 wins the game: both scores
      return to "0" and the scorer gains a game. */
  lemma FortyWinsGame(c: MatchSnapshot, scorer: Side)
    requires !c.isTieBreak && c.Score(scorer) == Forty
    requires c.Score(scorer.Opponent()) != Forty && c.Score(scorer.Opponent()) != Ad
    ensures AfterStandardPoint(c, scorer) == AfterGameWon(c, scorer)
    ensures AfterStandardPoint(c, scorer).pairAScore == Zero
    ensures AfterStandardPoint(c, scorer).pairBScore == Zero
    ensures AfterStandardPoint(c, scorer).Games(scorer) == c.Games(scorer) + 1
  {
  }

  /** Without golden point, 40-40 gives the scorer "AD" and leaves the
      opponent at "40". */
  lemma DeuceGivesAdvantage(c: MatchSnapshot, scorer: Side)
    requires !c.isTieBreak && !c.hasGoldPoint
    requires c.pairAScore == Forty && c.pairBScore == Forty
    ensures AfterStandardPoint(c, scorer) == WithScore(c, scorer, Ad)
    ensures AfterStandardPoint(c, scorer).Score(scorer.Opponent()) == Forty
  {
  }

  /** Without golden point, a point from "AD" wins the game. */
  lemma AdvantageConverted(c: MatchSnapshot, scorer: Side)
    requires !c.isTieBreak && !c.hasGoldPoint && c.Score(scorer) == Ad
    ensures AfterStandardPoint(c, scorer) == AfterGameWon(c, scorer)
  {
  }

  /** Without golden point, a point against the opponent's "AD" returns the
      opponent to "40" and leaves the scorer where it was. */
  lemma AdvantageLost(c: MatchSnapshot, scorer: Side)
    requires !c.isTieBreak && !c.hasGoldPoint
    requires c.Score(scorer.Opponent()) == Ad && c.Score(scorer) != Ad
    ensures AfterStandardPoint(c, scorer) == WithScore(c, scorer.Opponent(), Forty)
    ensures AfterStandardPoint(c, scorer).Score(scorer) == c.Score(scorer)
  {
  }

  /** With golden point, 40-40 is decided by the next point, whoever wins it. */
  lemma GoldenPointDecides(c: MatchSnapshot, scorer: Side)
    requires !c.isTieBreak && c.hasGoldPoint
    requires c.pairAScore == Forty && c.pairBScore == Forty
    ensures AfterStandardPoint(c, scorer) == AfterGameWon(c, scorer)
  {
  }

  /** With golden point, no "AD" is ever produced from a state without one. */
  lemma GoldenPointNeverAdvantage(c: MatchSnapshot, scorer: Side, m: PointMethod,
                                  stroke: Option<Stroke>, net: Option<bool>)
    requires c.winnerSide.None? && c.hasGoldPoint && NoAdvantage(c)
    ensures NoAdvantage(PointTransition(c, scorer, m, stroke, net).value.nextSnapshot)
    ensures PointTransition(c, scorer, m, stroke, net).value.nextSnapshot.hasGoldPoint
  {
  }

  // ---------------------------------------------------------------------
  // Tie-break
  // ---------------------------------------------------------------------

  /** Outside a tie-break, the tie-break turns on exactly when the point wins
      a game that makes the games 6-6. */
  lemma TieBreakStartsAtSixAll(c: MatchSnapshot, scorer: Side)
    requires !c.isTieBreak
    ensures var r := AfterStandardPoint(c, scorer);
            r.isTieBreak <==> (WinsGame(c, scorer) && r.pairAGames == 6 && r.pairBGames == 6)
  {
  }

  /** In a tie-break the scorer's count goes up by one and nothing else moves,
      except that reaching 7 or more with a lead of 2 or more adds one game. */
  lemma TieBreakPointCounts(c: MatchSnapshot, scorer: Side)
    requires c.isTieBreak
    ensures var r := AfterTieBreakPoint(c, scorer);
            var n := ParseOrZero(c.Score(scorer)) + 1;
            var o := ParseOrZero(c.Score(scorer.Opponent()));
            && ParseInt(r.Score(scorer)) == Some(n)
            && r.Score(scorer.Opponent()) == c.Score(scorer.Opponent())
            && r.Games(scorer.Opponent()) == c.Games(scorer.Opponent())
            && r.Games(scorer) == (if n >= 7 && n - o >= 2 then c.Games(scorer) + 1 else c.Games(scorer))
            && r.isTieBreak
  {
    ParseScoreOf(ParseOrZero(c.Score(scorer)) + 1);
  }

  /** From a 6-6 tie-break the set record reads 7-6 with the tie-break counts. */
  lemma TieBreakWinRecordsSevenSix(c: MatchSnapshot, scorer: Side, m: PointMethod,
                                   stroke: Option<Stroke>, net: Option<bool>)
    requires InPlay(c) && c.isTieBreak
    requires PointTransition(c, scorer, m, stroke, net).value.setCompleted.Some?
    ensures var r := PointTransition(c, scorer, m, stroke, net).value.setCompleted.value;
            && r.Games(scorer) == 7 && r.Games(scorer.Opponent()) == 6
            && r.TieBreakPoints(scorer) == Some(ParseInt(c.Score(scorer)).value + 1)
            && r.TieBreakPoints(scorer.Opponent()) == ParseInt(c.Score(scorer.Opponent()))
  {
    ParseScoreOf(ParseOrZero(c.Score(scorer)) + 1);
  }

  // ---------------------------------------------------------------------
  // Sets and match
  // ---------------------------------------------------------------------

  /** A won set is recorded with the set number before the point, and then
      either finishes the match (in set 3) or starts the next set at 0-0. */
  lemma SetWonAdvancesOrFinishes(c: MatchSnapshot, scorer: Side, m: PointMethod,
                                 stroke: Option<Stroke>, net: Option<bool>)
    requires c.winnerSide.None?
    requires PointTransition(c, scorer, m, stroke, net).value.setCompleted.Some?
    ensures var o := PointTransition(c, scorer, m, stroke, net).value;
            var n := o.nextSnapshot;
            && o.setCompleted.value.setNumber == c.currentSetIdx
            && (c.currentSetIdx == 3 ==> n.winnerSide == Some(scorer) && n.status == Finished)
            && (c.currentSetIdx != 3 ==>
                  && n.winnerSide.None? && n.currentSetIdx == c.currentSetIdx + 1
                  && n.pairAGames == 0 && n.pairBGames == 0
                  && n.pairAScore == Zero && n.pairBScore == Zero && !n.isTieBreak)
  {
  }

  /** The match is finished by a point exactly when that point wins a set
      while the set index is 3: two sets won in sets 1 and 2 do not finish it. */
  lemma MatchEndsOnlyInSetThree(c: MatchSnapshot, scorer: Side, m: PointMethod,
                                stroke: Option<Stroke>, net: Option<bool>)
    requires c.winnerSide.None?
    ensures var o := PointTransition(c, scorer, m, stroke, net).value;
            o.nextSnapshot.winnerSide.Some? <==> (o.setCompleted.Some? && c.currentSetIdx == 3)
  {
  }

  /** The engine never writes the match's configuration or set counters. */
  lemma ConfigurationUntouched(c: MatchSnapshot, scorer: Side, m: PointMethod,
                               stroke: Option<Stroke>, net: Option<bool>)
    requires c.winnerSide.None?
    ensures var n := PointTransition(c, scorer, m, stroke, net).value.nextSnapshot;
            && n.id == c.id && n.hasGoldPoint == c.hasGoldPoint
            && n.pairASets == c.pairASets && n.pairBSets == c.pairBSets
            && n.servingPlayerId == c.servingPlayerId
  {
    PlayedKeepsConfiguration(c, scorer);
  }

  /** The point itself changes only scores, games and the tie-break flag. */
  lemma PlayedKeepsConfiguration(c: MatchSnapshot, scorer: Side)
    ensures var p := Played(c, scorer);
            && p.id == c.id && p.hasGoldPoint == c.hasGoldPoint
            && p.pairASets == c.pairASets && p.pairBSets == c.pairBSets
            && p.servingPlayerId == c.servingPlayerId && p.currentSetIdx == c.currentSetIdx
            && p.winnerSide == c.winnerSide && p.status == c.status
  {
  }

  /** From a reachable state, every completed set is a legal set score won
      by the scorer. */
  lemma CompletedSetIsLegal(c: MatchSnapshot, scorer: Side, m: PointMethod,
                            stroke: Option<Stroke>, net: Option<bool>)
    requires InPlay(c)
    ensures var o := PointTransition(c, scorer, m, stroke, net).value;
            o.setCompleted.Some? ==> LegalSetScore(o.setCompleted.value, scorer)
  {
    if c.isTieBreak {
      TieBreakSetIsLegal(c, scorer);
    } else {
      StandardSetIsLegal(c, scorer);
    }
  }

  /** A set closed by a tie-break point is recorded 7-6 with the counts of a
      decided tie-break. */
  lemma TieBreakSetIsLegal(c: MatchSnapshot, scorer: Side)
    requires InPlay(c) && c.isTieBreak
    ensures var p := Played(c, scorer);
            HasWonSet(p, scorer) ==> LegalSetScore(SetRecord(p), scorer)
  {
    var n := ParseOrZero(c.Score(scorer)) + 1;
    ParseScoreOf(n);
    var p := Played(c, scorer);
    assert ParseInt(p.Score(scorer)) == Some(n);
    assert p.Score(scorer.Opponent()) == c.Score(scorer.Opponent());
  }

  /** A set closed by a standard point is recorded 6 against at most 4 or
      7-5, without tie-break counts. */
  lemma StandardSetIsLegal(c: MatchSnapshot, scorer: Side)
    requires InPlay(c) && !c.isTieBreak
    ensures var p := Played(c, scorer);
            HasWonSet(p, scorer) ==> LegalSetScore(SetRecord(p), scorer)
  {
    var p := Played(c, scorer);
    if p.Games(scorer) == c.Games(scorer) + 1 {
      assert p.Games(scorer.Opponent()) == c.Games(scorer.Opponent());
    } else {
      assert p.Games(scorer) == c.Games(scorer) && p.Games(scorer.Opponent()) == c.Games(scorer.Opponent());
    }
  }

  /** Play keeps a match in a reachable state until the engine finishes it. */
  lemma InPlayPreserved(c: MatchSnapshot, scorer: Side, m: PointMethod,
                        stroke: Option<Stroke>, net: Option<bool>)
    requires InPlay(c) && GoldenConsistent(c)
    ensures var n := PointTransition(c, scorer, m, stroke, net).value.nextSnapshot;
            if n.winnerSide.Some? then n.winnerSide == Some(scorer) && n.status == Finished
            else InPlay(n) && GoldenConsistent(n)
  {
    PlayedKeepsConfiguration(c, scorer);
    if c.isTieBreak {
      TieBreakPointStaysInPlay(c, scorer);
    } else {
      StandardPointStaysInPlay(c, scorer);
    }
  }

  /** A tie-break point either wins the set for the scorer or leaves an
      undecided 6-6 tie-break. */
  lemma TieBreakPointStaysInPlay(c: MatchSnapshot, scorer: Side)
    requires InPlay(c) && c.isTieBreak
    ensures var p := Played(c, scorer);
            HasWonSet(p, scorer) || (InPlay(p) && NoAdvantage(p))
  {
    var n := ParseOrZero(c.Score(scorer)) + 1;
    ParseScoreOf(n);
    var p := Played(c, scorer);
    assert ParseInt(p.Score(scorer)) == Some(n);
    assert p.Score(scorer.Opponent()) == c.Score(scorer.Opponent());
  }

  /** A standard point either wins the set for the scorer or leaves a
      reachable state, consistent with golden point. */
  lemma StandardPointStaysInPlay(c: MatchSnapshot, scorer: Side)
    requires InPlay(c) && GoldenConsistent(c) && !c.isTieBreak
    ensures var p := Played(c, scorer);
            HasWonSet(p, scorer) || (InPlay(p) && GoldenConsistent(p))
  {
    var p := Played(c, scorer);
    if p.Games(scorer) == c.Games(scorer) + 1 {
      assert p.pairAScore == Zero && p.pairBScore == Zero;
    } else {
      assert p.Games(scorer) == c.Games(scorer) && p.Games(scorer.Opponent()) == c.Games(scorer.Opponent());
    }
  }

  // ---------------------------------------------------------------------
  // History record and pre-point flags
  // ---------------------------------------------------------------------

  /** The history record carries the set and game numbers from before the
      point, point number 0, the scores from after it, the stroke and net
      flag as given, and the flags of the pre-point state. */
  lemma HistoryRecord(c: MatchSnapshot, scorer: Side, m: PointMethod,
                      stroke: Option<Stroke>, net: Option<bool>)
    requires c.winnerSide.None?
    ensures var o := PointTransition(c, scorer, m, stroke, net).value;
            var h := o.history;
            && h.setNumber == c.currentSetIdx
            && h.gameNumber == c.pairAGames + c.pairBGames + 1
            && h.scoreAfterPairA == o.nextSnapshot.pairAScore
            && h.scoreAfterPairB == o.nextSnapshot.pairBScore
            && h.pointNumber == 0
            && h.winnerSide == Pair(scorer) && h.pointMethod == Some(m)
            && h.stroke == stroke && h.isNetPoint == net
            && Flags(h.isGamePoint, h.isSetPoint, h.isMatchPoint) == CalculateFlags(c)
  {
  }

  /** The game-point owner read from the pre-point state is exactly the side
      (or, at golden 40-40, the sides) whose next point wins the game. */
  lemma GamePointOwnerLooksAhead(c: MatchSnapshot, side: Side)
    requires InPlay(c) && GoldenConsistent(c)
    ensures (GamePointOwnerOf(c) == BothSides || GamePointOwnerOf(c) == Owner(side))
            <==> WinsGame(c, side)
  {
  }

  /** Game point is flagged exactly when some side's next point wins the game. */
  lemma GamePointFlagLooksAhead(c: MatchSnapshot)
    requires InPlay(c) && GoldenConsistent(c)
    ensures CalculateFlags(c).isGamePoint <==> WinsGame(c, PairA) || WinsGame(c, PairB)
  {
    GamePointOwnerLooksAhead(c, PairA);
    GamePointOwnerLooksAhead(c, PairB);
  }

  /** For one side: holding game point with a set-closing game count is the
      same as that side's next point winning the set. */
  lemma SetPointSideLooksAhead(c: MatchSnapshot, side: Side)
    requires InPlay(c) && GoldenConsistent(c)
    ensures (CanWinSet(c, side) && (GamePointOwnerOf(c) == BothSides || GamePointOwnerOf(c) == Owner(side)))
            <==> ClosesSet(c, side)
  {
    GamePointOwnerLooksAhead(c, side);
    if c.isTieBreak {
      ParseScoreOf(ParseOrZero(c.Score(side)) + 1);
    }
  }

  /** Set point is flagged exactly when some side's next point wins the set. */
  lemma SetPointFlagLooksAhead(c: MatchSnapshot)
    requires InPlay(c) && GoldenConsistent(c)
    ensures CalculateFlags(c).isSetPoint <==> ClosesSet(c, PairA) || ClosesSet(c, PairB)
  {
    SetPointSideLooksAhead(c, PairA);
    SetPointSideLooksAhead(c, PairB);
  }

  /** Match point is flagged exactly when a side whose next point wins the set
      already has a set on its counter. */
  lemma MatchPointFlagLooksAhead(c: MatchSnapshot)
    requires InPlay(c) && GoldenConsistent(c)
    ensures CalculateFlags(c).isMatchPoint
            <==> (ClosesSet(c, PairA) && c.pairASets >= 1) || (ClosesSet(c, PairB) && c.pairBSets >= 1)
  {
    SetPointSideLooksAhead(c, PairA);
    SetPointSideLooksAhead(c, PairB);
  }

  // ---------------------------------------------------------------------
  // Scenarios
  // ---------------------------------------------------------------------

  /** Four straight points from 0-0 win a game: games go up by one, both
      scores read "0" and the set is still open. */
  lemma FourPointsWinAGame(c: MatchSnapshot, side: Side)
    requires InPlay(c) && !c.isTieBreak
    requires c.pairAScore == Zero && c.pairBScore == Zero && c.Games(side) <= 4
    ensures var s1 := After(c, side);
            s1.winnerSide.None? &&
            var s2 := After(s1, side);
            s2.winnerSide.None? &&
            var s3 := After(s2, side);
            s3.winnerSide.None? &&
            var s4 := After(s3, side);
            && s1.Score(side) == Fifteen && s2.Score(side) == Thirty && s3.Score(side) == Forty
            && s4.Games(side) == c.Games(side) + 1
            && s4.Games(side.Opponent()) == c.Games(side.Opponent())
            && s4.pairAScore == Zero && s4.pairBScore == Zero
            && s4.currentSetIdx == c.currentSetIdx && !s4.isTieBreak
  {
    var s1 := After(c, side);
    LadderPointInOpenGame(c, side);
    var s2 := After(s1, side);
    LadderPointInOpenGame(s1, side);
    var s3 := After(s2, side);
    LadderPointInOpenGame(s2, side);
    FortyWinsGame(s3, side);
  }

  /** From a reachable state with the opponent at "0", a point below 40
      climbs one rung and leaves the state reachable. */
  lemma LadderPointInOpenGame(c: MatchSnapshot, side: Side)
    requires InPlay(c) && !c.isTieBreak
    requires c.Score(side) == Zero || c.Score(side) == Fifteen || c.Score(side) == Thirty
    requires c.Score(side.Opponent()) == Zero
    ensures After(c, side) == WithScore(c, side, NextPoint(c.Score(side)))
    ensures InPlay(After(c, side))
  {
    LadderStep(c, side);
  }

  /** Without golden point, alternating points to 40-40 and one more point for
      pair A leave pair A at "AD" and pair B at "40". */
  lemma AlternatingToAdvantage(c: MatchSnapshot)
    requires InPlay(c) && !c.isTieBreak && !c.hasGoldPoint
    requires c.pairAScore == Zero && c.pairBScore == Zero
    ensures var s1 := After(c, PairA);
            var s2 := After(s1, PairB);
            var s3 := After(s2, PairA);
            var s4 := After(s3, PairB);
            var s5 := After(s4, PairA);
            var s6 := After(s5, PairB);
            && s6.pairAScore == Forty && s6.pairBScore == Forty
            && var s7 := After(s6, PairA);
            s7.pairAScore == Ad && s7.pairBScore == Forty
  {
  }
}
