/** Properties of the older scoring engine (src/lib/padel-rules.ts), stated
    about the transition function that `PadelRules.HandlePointScored` is
    proved to compute. */
module PadelRulesProperties {
  import opened PadelTypes
  import PadelScoring
  import opened PadelRules

  /** Winning the next point would win the current game for `side`. */
  predicate WinsGame(c: MatchSnapshot, side: Side) {
    Played(c, Pair(side)).Games(side) == c.Games(side) + 1
  }

  /** Winning the next point would win the current set for `side`. */
  predicate ClosesSet(c: MatchSnapshot, side: Side) {
    HasWonSet(Played(c, Pair(side)), Pair(side))
  }

  /** 40-40 always gives the scorer "AD", with or without golden point. */
  lemma DeuceAlwaysGivesAdvantage(c: MatchSnapshot, side: Side)
    requires !c.isTieBreak && c.pairAScore == Forty && c.pairBScore == Forty
    ensures Played(c, Pair(side)) == PadelScoring.WithScore(c, side, Ad)
    ensures Played(c, Pair(side)).Score(side.Opponent()) == Forty
  {
  }

  /** A point from "AD" wins the game, with or without golden point. */
  lemma AdvantageConverted(c: MatchSnapshot, side: Side)
    requires !c.isTieBreak && c.Score(side) == Ad
    ensures Played(c, Pair(side)) == PadelScoring.AfterGameWon(c, side)
  {
  }

  /** A point against the opponent's "AD" returns the opponent to "40" and
      leaves the scorer where it was, with or without golden point. */
  lemma AdvantageLost(c: MatchSnapshot, side: Side)
    requires !c.isTieBreak && c.Score(side.Opponent()) == Ad && c.Score(side) != Ad
    ensures Played(c, Pair(side)) == PadelScoring.WithScore(c, side.Opponent(), Forty)
    ensures Played(c, Pair(side)).Score(side) == c.Score(side)
  {
  }

  /** A point below 40 against an opponent without "AD" climbs exactly one
      rung of the ladder, with or without golden point. */
  lemma LadderStep(c: MatchSnapshot, side: Side)
    requires !c.isTieBreak
    requires c.Score(side) == Zero || c.Score(side) == Fifteen || c.Score(side) == Thirty
    requires c.Score(side.Opponent()) != Ad
    ensures Played(c, Pair(side)) == PadelScoring.WithScore(c, side, NextPoint(c.Score(side)))
    ensures LadderRank(Played(c, Pair(side)).Score(side)) == LadderRank(c.Score(side)) + 1
  {
    NextPointClimbsOneRung(c.Score(side));
  }

  /** A point at 40 against an opponent below 40 wins the game, with or
      without golden point. */
  lemma FortyWinsGame(c: MatchSnapshot, side: Side)
    requires !c.isTieBreak && c.Score(side) == Forty
    requires c.Score(side.Opponent()) != Forty && c.Score(side.Opponent()) != Ad
    ensures Played(c, Pair(side)) == PadelScoring.AfterGameWon(c, side)
    ensures Played(c, Pair(side)).Games(side) == c.Games(side) + 1
  {
  }

  /** The history record carries the set and game numbers from before the
      point, the side argument as it was passed, the scores from after the
      point and the flags of the pre-point state; there is no stroke and no
      net flag, and the point number is left at 0. */
  lemma HistoryRecord(c: MatchSnapshot, t: ScorerTag, m: Option<PointMethod>)
    requires c.winnerSide.None?
    ensures var o := PointTransition(c, t, m).value;
            var h := o.history;
            && h.setNumber == c.currentSetIdx
            && h.gameNumber == c.pairAGames + c.pairBGames + 1
            && h.pointNumber == 0
            && h.winnerSide == t && h.pointMethod == m
            && h.stroke.None? && h.isNetPoint.None?
            && h.scoreAfterPairA == o.nextSnapshot.pairAScore
            && h.scoreAfterPairB == o.nextSnapshot.pairBScore
            && Flags(h.isGamePoint, h.isSetPoint, h.isMatchPoint) == CalculateFlags(c)
  {
  }

  /** A tie-break point adds one to the scorer's count and nothing else:
      games stay as they are and the tie-break goes on. */
  lemma TieBreakPointOnlyCounts(c: MatchSnapshot, t: ScorerTag)
    requires c.isTieBreak
    ensures var p := Played(c, t);
            var side := ScorerSideOf(t);
            && ParseInt(p.Score(side)) == Some(ParseOrZero(c.Score(side)) + 1)
            && p.Score(side.Opponent()) == c.Score(side.Opponent())
            && p.pairAGames == c.pairAGames && p.pairBGames == c.pairBGames
            && p.isTieBreak
  {
    ParseScoreOf(ParseOrZero(c.Score(ScorerSideOf(t))) + 1);
  }

  /** The engine never finishes a match: every won set moves on to the next
      set at 0-0, and status and winner are never written. */
  lemma NeverFinishes(c: MatchSnapshot, t: ScorerTag, m: Option<PointMethod>)
    requires c.winnerSide.None?
    ensures var o := PointTransition(c, t, m).value;
            && o.nextSnapshot.winnerSide.None?
            && o.nextSnapshot.status == c.status
            && (o.setCompleted.Some? ==>
                  && o.setCompleted.value.setNumber == c.currentSetIdx
                  && o.nextSnapshot.currentSetIdx == c.currentSetIdx + 1
                  && o.nextSnapshot.pairAGames == 0 && o.nextSnapshot.pairBGames == 0
                  && o.nextSnapshot.pairAScore == Zero && o.nextSnapshot.pairBScore == Zero
                  && !o.nextSnapshot.isTieBreak)
            && (o.setCompleted.None? ==> o.nextSnapshot.currentSetIdx == c.currentSetIdx)
  {
    var p := Played(c, t);
    PlayedKeepsSetAndResult(c, t);
    assert PointTransition(c, t, m).value.nextSnapshot == (if HasWonSet(p, t) then NextSet(p) else p);
    assert PointTransition(c, t, m).value.setCompleted.Some? <==> HasWonSet(p, t);
  }

  /** The point itself never changes the set index, the winner or the
      status. */
  lemma PlayedKeepsSetAndResult(c: MatchSnapshot, t: ScorerTag)
    ensures var p := Played(c, t);
            && p.currentSetIdx == c.currentSetIdx && p.winnerSide == c.winnerSide && p.status == c.status
  {
  }

  /** From a reachable state a won set is recorded as 6 games against at most
      4, as 7-5, or, after a tie-break, as 6-6 with the tie-break counts of a
      decided tie-break. */
  lemma CompletedSetRecord(c: MatchSnapshot, side: Side, m: Option<PointMethod>)
    requires InPlay(c)
    ensures var o := PointTransition(c, Pair(side), m).value;
            o.setCompleted.Some? ==>
              var r := o.setCompleted.value;
              if c.isTieBreak then
                && r.pairAGames == 6 && r.pairBGames == 6
                && r.TieBreakPoints(side) == Some(ParseInt(c.Score(side)).value + 1)
                && r.TieBreakPoints(side.Opponent()) == ParseInt(c.Score(side.Opponent()))
                && r.TieBreakPoints(side).value >= 7
                && r.TieBreakPoints(side).value - r.TieBreakPoints(side.Opponent()).value >= 2
              else
                && r.tieBreakPairAPoints.None? && r.tieBreakPairBPoints.None?
                && ((r.Games(side) == 6 && r.Games(side.Opponent()) <= 4)
                    || (r.Games(side) == 7 && r.Games(side.Opponent()) == 5))
  {
    if c.isTieBreak {
      ParseScoreOf(ParseOrZero(c.Score(side)) + 1);
    }
  }

  /** Play by a named pair keeps a match in a reachable state. */
  lemma InPlayPreserved(c: MatchSnapshot, side: Side, m: Option<PointMethod>)
    requires InPlay(c)
    ensures InPlay(PointTransition(c, Pair(side), m).value.nextSnapshot)
  {
    var p := Played(c, Pair(side));
    assert p.winnerSide == c.winnerSide;
    if c.isTieBreak {
      TieBreakPointStaysInPlay(c, side);
    } else {
      StandardPointStaysInPlay(c, side);
    }
  }

  /** A tie-break point either wins the set for the scorer or leaves an
      undecided 6-6 tie-break. */
  lemma TieBreakPointStaysInPlay(c: MatchSnapshot, side: Side)
    requires InPlay(c) && c.isTieBreak
    ensures var p := Played(c, Pair(side));
            HasWonSet(p, Pair(side)) || InPlay(p)
  {
    var n := ParseOrZero(c.Score(side)) + 1;
    ParseScoreOf(n);
    var p := Played(c, Pair(side));
    assert ParseInt(p.Score(side)) == Some(n);
    assert p.Score(side.Opponent()) == c.Score(side.Opponent());
  }

  /** A standard point either wins the set for the scorer or leaves a
      reachable state. */
  lemma StandardPointStaysInPlay(c: MatchSnapshot, side: Side)
    requires InPlay(c) && !c.isTieBreak
    ensures var p := Played(c, Pair(side));
            HasWonSet(p, Pair(side)) || InPlay(p)
  {
    var p := Played(c, Pair(side));
    if p.Games(side) == c.Games(side) + 1 {
      assert p.pairAScore == Zero && p.pairBScore == Zero;
    } else {
      assert p.Games(side) == c.Games(side) && p.Games(side.Opponent()) == c.Games(side.Opponent());
    }
  }

  /** Outside a tie-break, game point is flagged exactly when some pair's
      next point wins the game. */
  lemma GamePointFlagLooksAhead(c: MatchSnapshot)
    requires InPlay(c) && !c.isTieBreak
    ensures CalculateFlags(c).isGamePoint <==> WinsGame(c, PairA) || WinsGame(c, PairB)
  {
  }

  /** Set point is flagged exactly when some pair's next point wins the set;
      in a tie-break game point and set point coincide. */
  lemma SetPointFlagLooksAhead(c: MatchSnapshot)
    requires InPlay(c)
    ensures CalculateFlags(c).isSetPoint <==> ClosesSet(c, PairA) || ClosesSet(c, PairB)
    ensures c.isTieBreak ==> CalculateFlags(c).isGamePoint == CalculateFlags(c).isSetPoint
    ensures !CalculateFlags(c).isMatchPoint
  {
    if c.isTieBreak {
      ParseScoreOf(ParseOrZero(c.pairAScore) + 1);
      ParseScoreOf(ParseOrZero(c.pairBScore) + 1);
    }
  }

  /** A side argument that is neither "pair_a" nor "pair_b" scores for pair B
      in every respect except that it can never win a tie-break: the
      tie-break then goes on for ever. */
  lemma UnrecognisedTagScoresForPairB(c: MatchSnapshot, name: ForeignName, m: Option<PointMethod>)
    requires c.winnerSide.None?
    ensures Played(c, Unrecognised(name)) == Played(c, Pair(PairB))
    ensures !c.isTieBreak ==>
              PointTransition(c, Unrecognised(name), m).value.nextSnapshot
              == PointTransition(c, Pair(PairB), m).value.nextSnapshot
    ensures c.isTieBreak ==>
              && PointTransition(c, Unrecognised(name), m).value.setCompleted.None?
              && PointTransition(c, Unrecognised(name), m).value.nextSnapshot.isTieBreak
  {
  }
}
