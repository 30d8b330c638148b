/** Properties of the point controller (src/controllers/match.ts) and the
    two discrepancies between what it does and what it evidently means. */
module MatchControllerProperties {
  import opened PadelTypes
  import PadelScoring
  import PadelRules
  import PadelRulesProperties
  import opened MatchController

  // ---------------------------------------------------------------------
  // The controller
  // ---------------------------------------------------------------------

  /** An unknown match id fails before anything is read or written. */
  lemma UnknownMatchRejected(engine: Engine, rule: StatusRule, write: ColumnWriter, s: StoreState, matchId: int, playerId: int,
                             action: ActionType)
    requires matchId !in s.matches
    ensures PointScored(engine, rule, write, s, matchId, playerId, action) == Processed(s, Err(MatchNotFound))
  {
  }

  /** A point on a finished match is ignored: nothing is written and
      nothing is broadcast. */
  lemma FinishedMatchIgnored(engine: Engine, rule: StatusRule, write: ColumnWriter, s: StoreState, matchId: int, playerId: int,
                             action: ActionType)
    requires matchId in s.matches && s.matches[matchId].status == Finished
    ensures PointScored(engine, rule, write, s, matchId, playerId, action) == Processed(s, Ok(None))
  {
  }

  /** A player outside the match's four slots is rejected before the engine
      runs, and nothing is written. */
  lemma UnknownPlayerRejected(engine: Engine, rule: StatusRule, write: ColumnWriter, s: StoreState, matchId: int, playerId: int,
                              action: ActionType)
    requires matchId in s.matches && s.matches[matchId].status != Finished
    requires ResolvePlayerSide(s.matches[matchId], playerId).Err?
    ensures PointScored(engine, rule, write, s, matchId, playerId, action) == Processed(s, Err(PlayerNotInMatch))
  {
  }

  /** After a successful point the engine was run for the pair the action
      designates on the snapshot the column held, and the match row holds
      the column written for the broadcast outcome and the status the rule
      picks; the players are unchanged. */
  lemma SuccessfulPointIsStoredAndCredited(engine: Engine, rule: StatusRule, write: ColumnWriter, s: StoreState, matchId: int,
                                           playerId: int, action: ActionType)
    requires PointScored(engine, rule, write, s, matchId, playerId, action).result.Ok?
    requires PointScored(engine, rule, write, s, matchId, playerId, action).result.value.Some?
    ensures var p := PointScored(engine, rule, write, s, matchId, playerId, action);
            var u := p.result.value.value;
            && matchId in s.matches
            && var side := ResolvePlayerSide(s.matches[matchId], playerId);
            && side.Ok?
            && u.matchId == matchId
            && u.lastAction.scorerSide == ScorerSide(side.value, action)
            && ReadBack(s.matches[matchId].matchState).Some?
            && engine(ReadBack(s.matches[matchId].matchState).value, u.lastAction.scorerSide) == Ok(u.state)
            && p.store.matches[matchId] == s.matches[matchId].(matchState := write(u.state),
                                                               status := rule(s.matches[matchId].status, u.state))
  {
  }

  /** As written, the controller never finishes a match, whatever the
      engine: a match row is "finished" after a point exactly when it was
      before. */
  lemma AsWrittenControllerNeverFinishes(engine: Engine, write: ColumnWriter, s: StoreState, matchId: int, playerId: int,
                                         action: ActionType)
    requires matchId in s.matches
    ensures var p := PointScored(engine, NextStatusAsWritten, write, s, matchId, playerId, action);
            p.store.matches[matchId].status == Finished <==> s.matches[matchId].status == Finished
  {
  }

  /** With the engine it imports, whatever strings it passes as the side,
      the controller never finishes a match even with the corrected status
      rule: the engine never sets a winner. */
  lemma ControllerNeverFinishesMatch(tagOf: Side -> ScorerTag, write: ColumnWriter, s: StoreState, matchId: int, playerId: int,
                                     action: ActionType)
    requires matchId in s.matches
    ensures var p := PointScored(OlderEngineWith(tagOf), NextStatus, write, s, matchId, playerId, action);
            p.store.matches[matchId].status == Finished <==> s.matches[matchId].status == Finished
  {
    var m := s.matches[matchId];
    if m.status != Finished {
      var side := ResolvePlayerSide(m, playerId);
      if side.Ok? && ReadBack(m.matchState).Some? {
        var c := ReadBack(m.matchState).value;
        var scorer := ScorerSide(side.value, action);
        var t := tagOf(scorer);
        assert OlderEngineWith(tagOf)(c, scorer) == PadelRules.PointTransition(c, t, None);
        if c.winnerSide.None? {
          PadelRulesProperties.NeverFinishes(c, t, None);
          var o := PadelRules.PointTransition(c, t, None).value;
          assert NextStatus(m.status, o) != Finished;
        }
      }
    }
  }

  /** Statistics only grow: no counter of any row ever goes down, and a
      point adds at most one to each counter of its own player's row. */
  lemma StatsOnlyGrow(engine: Engine, rule: StatusRule, write: ColumnWriter, s: StoreState, matchId: int, playerId: int,
                      action: ActionType)
    ensures var p := PointScored(engine, rule, write, s, matchId, playerId, action);
            forall k :: k in s.stats ==>
              && s.stats[k].pointsWon <= p.store.stats[k].pointsWon <= s.stats[k].pointsWon + 1
              && s.stats[k].winners <= p.store.stats[k].winners <= s.stats[k].winners + 1
              && s.stats[k].unforcedErrors <= p.store.stats[k].unforcedErrors <= s.stats[k].unforcedErrors + 1
              && p.store.stats[k].totalPointsPlayed == s.stats[k].totalPointsPlayed
  {
  }

  // ---------------------------------------------------------------------
  // Finding: the side argument
  // ---------------------------------------------------------------------

  /** As written, a point for pair A from 0-0 is scored for pair B. */
  lemma AsWrittenPointForPairAScoresForPairB(c: MatchSnapshot)
    requires InPlay(c) && !c.isTieBreak && c.pairAScore == Zero && c.pairBScore == Zero
    ensures var n := OlderEngineAsWritten(c, PairA).value.nextSnapshot;
            n.pairAScore == Zero && n.pairBScore == Fifteen
  {
  }

  /** As written, a tie-break never ends, whoever scores. */
  lemma AsWrittenTieBreakNeverEnds(c: MatchSnapshot, side: Side)
    requires c.winnerSide.None? && c.isTieBreak
    ensures var o := OlderEngineAsWritten(c, side).value;
            o.setCompleted.None? && o.nextSnapshot.isTieBreak
  {
    PadelRulesProperties.UnrecognisedTagScoresForPairB(c, ScorerTagAsWritten(side).name, None);
  }

  /** With the engine's own side names, a point below 40 moves the scorer,
      not the opponent, one rung up the ladder. */
  lemma PointCreditsScorer(c: MatchSnapshot, side: Side)
    requires InPlay(c) && !c.isTieBreak
    requires c.Score(side) == Zero || c.Score(side) == Fifteen || c.Score(side) == Thirty
    requires c.Score(side.Opponent()) != Ad
    ensures var n := OlderEngine(c, side).value.nextSnapshot;
            n.Score(side) == NextPoint(c.Score(side)) && n.Score(side.Opponent()) == c.Score(side.Opponent())
  {
  }

  /** With the engine's own side names, a tie-break point at 6 against at
      most 5 closes the set. */
  lemma TieBreakCanEnd(c: MatchSnapshot, side: Side)
    requires InPlay(c) && c.isTieBreak
    requires ParseInt(c.Score(side)) == Some(6) && ParseInt(c.Score(side.Opponent())).value <= 5
    ensures OlderEngine(c, side).value.setCompleted.Some?
  {
    ParseScoreOf(7);
  }

  // ---------------------------------------------------------------------
  // Finding: the status update
  // ---------------------------------------------------------------------

  /** The snapshot of a third set at 5-0 and 40-0 for pair A, golden point
      off. */
  function ThirdSetMatchPoint(): (c: MatchSnapshot)
    ensures InPlay(c)
  {
    MatchSnapshot(1, Forty, Zero, 5, 0, 3, false, false, None, Live, 1, 1, None)
  }

  /** The current engine, called for a winner. */
  function CurrentEngine(c: MatchSnapshot, side: Side): Result<PointOutcome, EngineError> {
    PadelScoring.PointTransition(c, side, PointMethod.Winner, None, None)
  }

  /** A store holding one live match, number 1, at match point in set 3 for
      pair A, whose players are 1 to 4. */
  function MatchPointStore(): StoreState {
    StoreState(
      map[1 := MatchRecord(Some(1), Some(2), Some(3), Some(4), Live, StoredSnapshot(ThirdSetMatchPoint()))],
      map[])
  }

  /** As written, a won match stays live: with an engine that finishes
      matches, a winner by player 1 at match point stores an outcome whose
      snapshot has pair A as winner and leaves match 1 "live". */
  lemma AsWrittenStatusMissesWin()
    ensures var p := PointScored(CurrentEngine, NextStatusAsWritten, StoredAsWritten, MatchPointStore(), 1, 1,
                                 ActionType.Winner);
            && 1 in p.store.matches
            && p.store.matches[1].matchState.StoredOutcome?
            && p.store.matches[1].matchState.outcome.nextSnapshot.winnerSide == Some(PairA)
            && p.store.matches[1].status == Live
  {
  }

  /** Reading the winner from the new snapshot, the controller finishes the
      match when the engine does: a winner by player 1 at match point
      leaves match 1 "finished" with pair A as winner. */
  lemma ControllerFinishesWonMatch()
    ensures var p := PointScored(CurrentEngine, NextStatus, Stored, MatchPointStore(), 1, 1, ActionType.Winner);
            && 1 in p.store.matches
            && p.store.matches[1].status == Finished
            && ReadBack(p.store.matches[1].matchState).value.winnerSide == Some(PairA)
  {
  }

  // ---------------------------------------------------------------------
  // Finding: the stored match state
  // ---------------------------------------------------------------------

  /** As written, after any successful point the next call on that match
      never runs the engine on the snapshot the point produced: the column
      reads back as no snapshot. In the model that call then stops with
      `StateNotASnapshot`, writing and broadcasting nothing, for a point by
      the same player on the still-open match. */
  lemma AsWrittenNextPointLosesSnapshot(engine: Engine, rule: StatusRule, s: StoreState, matchId: int,
                                        playerId: int, action: ActionType, playerId2: int, action2: ActionType)
    requires PointScored(engine, rule, StoredAsWritten, s, matchId, playerId, action).result.Ok?
    requires PointScored(engine, rule, StoredAsWritten, s, matchId, playerId, action).result.value.Some?
    ensures var p := PointScored(engine, rule, StoredAsWritten, s, matchId, playerId, action);
            var u := p.result.value.value;
            var q := PointScored(engine, rule, StoredAsWritten, p.store, matchId, playerId2, action2);
            && matchId in p.store.matches
            && ReadBack(p.store.matches[matchId].matchState) != Some(u.state.nextSnapshot)
            && q.store == p.store
            && (q.result.Ok? ==> q.result.value.None?)
            && (playerId2 == playerId && p.store.matches[matchId].status != Finished ==>
                  q.result == Err(StateNotASnapshot))
  {
    SuccessfulPointIsStoredAndCredited(engine, rule, StoredAsWritten, s, matchId, playerId, action);
    var p := PointScored(engine, rule, StoredAsWritten, s, matchId, playerId, action);
    var m := p.store.matches[matchId];
    assert ReadBack(m.matchState).None?;
    assert ResolvePlayerSide(m, playerId) == ResolvePlayerSide(s.matches[matchId], playerId);
  }

  /** Storing the new snapshot, after any successful point the next call on
      that match runs the engine on exactly the snapshot the point
      produced: a point by the same player on the still-open match is the
      engine's step from that snapshot, stored and broadcast. */
  lemma NextPointReadsStoredSnapshot(engine: Engine, rule: StatusRule, s: StoreState, matchId: int,
                                     playerId: int, action: ActionType, playerId2: int, action2: ActionType)
    requires PointScored(engine, rule, Stored, s, matchId, playerId, action).result.Ok?
    requires PointScored(engine, rule, Stored, s, matchId, playerId, action).result.value.Some?
    ensures var p := PointScored(engine, rule, Stored, s, matchId, playerId, action);
            var u := p.result.value.value;
            var q := PointScored(engine, rule, Stored, p.store, matchId, playerId2, action2);
            && matchId in p.store.matches
            && ReadBack(p.store.matches[matchId].matchState) == Some(u.state.nextSnapshot)
            && q.result != Err(StateNotASnapshot)
            && (q.result.Ok? && q.result.value.Some? ==>
                  engine(u.state.nextSnapshot, q.result.value.value.lastAction.scorerSide) == Ok(q.result.value.value.state))
            && (playerId2 == playerId && p.store.matches[matchId].status != Finished ==>
                  var scorer := ScorerSide(ResolvePlayerSide(s.matches[matchId], playerId).value, action2);
                  var next := engine(u.state.nextSnapshot, scorer);
                  && (next.Ok? ==> q.result == Ok(Some(MatchUpdate(matchId, next.value, LastAction(playerId, action2, scorer)))))
                  && (next.Err? ==> q.result == Err(EngineRejected(next.error))))
  {
    SuccessfulPointIsStoredAndCredited(engine, rule, Stored, s, matchId, playerId, action);
    var p := PointScored(engine, rule, Stored, s, matchId, playerId, action);
    var m := p.store.matches[matchId];
    assert ReadBack(m.matchState) == Some(p.result.value.value.state.nextSnapshot);
    assert ResolvePlayerSide(m, playerId) == ResolvePlayerSide(s.matches[matchId], playerId);
    var q := PointScored(engine, rule, Stored, p.store, matchId, playerId2, action2);
    if q.result.Ok? && q.result.value.Some? {
      SuccessfulPointIsStoredAndCredited(engine, rule, Stored, p.store, matchId, playerId2, action2);
    }
  }
}
