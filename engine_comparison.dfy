/** How the current engine (src/utils/padelScoring.ts) and the older one
    (src/lib/padel-rules.ts) relate: they agree on every point of a
    reachable state outside golden point, the tie-break and the third set,
    and differ exactly at golden-point deuce, in the tie-break's game count
    and at the end of set 3. */
module EngineComparison {
  import opened PadelTypes
  import PadelScoring
  import PadelRules
  import PadelScoringProperties

  /** Outside golden point, the tie-break and set 3, both engines produce
      the same snapshot, the same completed set and the same game-point
      and set-point flags. */
  lemma EnginesAgreeOnStandardPoints(c: MatchSnapshot, side: Side, m: PointMethod,
                                     stroke: Option<Stroke>, net: Option<bool>)
    requires InPlay(c) && !c.isTieBreak && !c.hasGoldPoint && c.currentSetIdx != 3
    ensures var current := PadelScoring.PointTransition(c, side, m, stroke, net).value;
            var older := PadelRules.PointTransition(c, Pair(side), Some(m)).value;
            && current.nextSnapshot == older.nextSnapshot
            && current.setCompleted == older.setCompleted
            && current.history.isGamePoint == older.history.isGamePoint
            && current.history.isSetPoint == older.history.isSetPoint
  {
    assert PadelScoring.Played(c, side) == PadelRules.Played(c, Pair(side));
  }

  /** At golden-point 40-40 the current engine gives the game to the scorer
      while the older one gives "AD". */
  lemma GoldenDeuceDiverges(c: MatchSnapshot, side: Side)
    requires !c.isTieBreak && c.hasGoldPoint && c.pairAScore == Forty && c.pairBScore == Forty
    ensures PadelScoring.Played(c, side).Games(side) == c.Games(side) + 1
    ensures PadelScoring.Played(c, side).Score(side) == Zero
    ensures PadelRules.Played(c, Pair(side)).Games(side) == c.Games(side)
    ensures PadelRules.Played(c, Pair(side)).Score(side) == Ad
  {
  }

  /** Both engines close a tie-break on the same point, with the same
      tie-break counts, but the current one records the set as 7-6 and the
      older one as 6-6. */
  lemma TieBreakClosesTogether(c: MatchSnapshot, side: Side, m: PointMethod)
    requires InPlay(c) && c.isTieBreak
    ensures var current := PadelScoring.PointTransition(c, side, m, None, None).value;
            var older := PadelRules.PointTransition(c, Pair(side), Some(m)).value;
            && (current.setCompleted.Some? <==> older.setCompleted.Some?)
            && (current.setCompleted.Some? ==>
                  && current.setCompleted.value.tieBreakPairAPoints == older.setCompleted.value.tieBreakPairAPoints
                  && current.setCompleted.value.tieBreakPairBPoints == older.setCompleted.value.tieBreakPairBPoints
                  && current.setCompleted.value.Games(side) == 7
                  && older.setCompleted.value.Games(side) == 6)
  {
    ParseScoreOf(ParseOrZero(c.Score(side)) + 1);
  }

  /** A set won in set 3 finishes the match in the current engine and opens
      a set 4 in the older one. */
  lemma ThirdSetDiverges(c: MatchSnapshot, side: Side, m: PointMethod)
    requires c.winnerSide.None? && c.currentSetIdx == 3
    requires PadelScoring.PointTransition(c, side, m, None, None).value.setCompleted.Some?
    requires PadelRules.PointTransition(c, Pair(side), Some(m)).value.setCompleted.Some?
    ensures PadelScoring.PointTransition(c, side, m, None, None).value.nextSnapshot.winnerSide == Some(side)
    ensures PadelRules.PointTransition(c, Pair(side), Some(m)).value.nextSnapshot.winnerSide.None?
    ensures PadelRules.PointTransition(c, Pair(side), Some(m)).value.nextSnapshot.currentSetIdx == 4
  {
    var p := PadelScoring.Played(c, side);
    PadelScoringProperties.PlayedKeepsConfiguration(c, side);
    assert PadelScoring.HasWonSet(p, side);
    assert PadelScoring.PointTransition(c, side, m, None, None).value.nextSnapshot
        == PadelScoring.AfterSetWon(p, side);
    var q := PadelRules.Played(c, Pair(side));
    assert q.currentSetIdx == 3;
    assert PadelRules.HasWonSet(q, Pair(side));
    assert PadelRules.PointTransition(c, Pair(side), Some(m)).value.nextSnapshot == PadelRules.NextSet(q);
  }
}
