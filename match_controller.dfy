/** The point controller `processPointScored` (src/controllers/match.ts):
    find the match, ignore a finished one, place the player on a pair,
    credit the point, run the engine, then write the match row and the
    player's statistics in one transaction and hand back the update that is
    broadcast to the match's topic. The database tables are the two maps of
    `MatchStore`. */
module MatchController {
  import opened PadelTypes
  import PadelScoring
  import PadelRules

  /** An action name other than the four the controller's type lists. */
  type OtherActionName = name: string
    | name != "winner" && name != "unforced_error" && name != "forced_error" && name != "standard"
    witness "smash"

  /** The action reported for a player. The controller's own type lists the
      first four names; any other string reaches it from the socket
      handler and is treated like "standard". */
  datatype ActionType = Winner | UnforcedError | ForcedError | Standard | OtherAction(name: OtherActionName)

  /** What the `matchState` column holds: a snapshot, or a whole engine
      outcome `{ nextSnapshot, history, setCompleted }`. */
  datatype StoredState = StoredSnapshot(snapshot: MatchSnapshot) | StoredOutcome(outcome: PointOutcome)

  /** The columns of a `matches` row the controller reads and writes. */
  datatype MatchRecord = MatchRecord(
    player1Id: Option<int>,
    player2Id: Option<int>,
    player3Id: Option<int>,
    player4Id: Option<int>,
    status: MatchStatus,
    matchState: StoredState)

  /** The counters of a `match_stats` row. */
  datatype PlayerStats = PlayerStats(pointsWon: nat, winners: nat, unforcedErrors: nat, totalPointsPlayed: nat)

  /** `match_stats` rows are found by match id and player id. */
  type StatsKey = (int, int)

  /** `StateNotASnapshot` stands for a column that holds no snapshot: the
      controller casts it and hands it to the engine all the same, and what
      the engine makes of the missing fields is not modelled. */
  datatype ControllerError = MatchNotFound | PlayerNotInMatch | StateNotASnapshot | EngineRejected(e: EngineError)

  datatype LastAction = LastAction(playerId: int, actionType: ActionType, scorerSide: Side)

  /** A scoring engine as the controller calls it: the stored snapshot and
      the credited pair in, the outcome or the engine's refusal out. */
  type Engine = (MatchSnapshot, Side) -> Result<PointOutcome, EngineError>

  /** How the controller picks the match row's new status from its old
      status and the engine's outcome. */
  type StatusRule = (MatchStatus, PointOutcome) -> MatchStatus

  /** What the controller writes to the `matchState` column for an outcome. */
  type ColumnWriter = PointOutcome -> StoredState

  /** The engine the controller imports, called with the pair names it
      compares against and without a point method. */
  function OlderEngine(c: MatchSnapshot, side: Side): Result<PointOutcome, EngineError> {
    PadelRules.PointTransition(c, ScorerTagFor(side), None)
  }

  /** The same engine called with the side strings `tagOf` chooses. */
  function OlderEngineWith(tagOf: Side -> ScorerTag): Engine {
    (c: MatchSnapshot, side: Side) => PadelRules.PointTransition(c, tagOf(side), None)
  }

  /** The same engine called as written, with the strings "a" and "b". */
  function OlderEngineAsWritten(c: MatchSnapshot, side: Side): Result<PointOutcome, EngineError> {
    PadelRules.PointTransition(c, ScorerTagAsWritten(side), None)
  }

  /** The `MATCH_UPDATE` payload, without its timestamp. */
  datatype MatchUpdate = MatchUpdate(matchId: int, state: PointOutcome, lastAction: LastAction)

  datatype StoreState = StoreState(matches: map<int, MatchRecord>, stats: map<StatsKey, PlayerStats>)

  /** The store after a call and what the call returns: `Ok(None)` when the
      point is ignored, `Ok(Some(u))` when `u` is broadcast. */
  datatype Processed = Processed(store: StoreState, result: Result<Option<MatchUpdate>, ControllerError>)

  /** Players 1 and 2 form pair A, players 3 and 4 pair B; an empty slot
      matches nobody. */
  function ResolvePlayerSide(m: MatchRecord, playerId: int): (r: Result<Side, ControllerError>)
    ensures r == Ok(PairA) <==> (m.player1Id == Some(playerId) || m.player2Id == Some(playerId))
    ensures r == Ok(PairB) <==> (&& m.player1Id != Some(playerId) && m.player2Id != Some(playerId)
                                 && (m.player3Id == Some(playerId) || m.player4Id == Some(playerId)))
    ensures r.Err? ==> r.error == PlayerNotInMatch
  {
    if m.player1Id == Some(playerId) || m.player2Id == Some(playerId) then Ok(PairA)
    else if m.player3Id == Some(playerId) || m.player4Id == Some(playerId) then Ok(PairB)
    else Err(PlayerNotInMatch)
  }

  /** An unforced error gives the point to the other pair; every other
      action gives it to the player's own pair. */
  function ScorerSide(playerSide: Side, action: ActionType): (s: Side)
    ensures s == playerSide.Opponent() <==> action.UnforcedError?
    ensures s == playerSide <==> !action.UnforcedError?
  {
    if action.UnforcedError? then playerSide.Opponent() else playerSide
  }

  /** The side argument as the controller passes it: the strings "a" and
      "b", which the engine compares with "pair_a" and "pair_b". */
  function ScorerTagAsWritten(side: Side): (t: ScorerTag)
    ensures !t.Pair?
    ensures side == PairA <==> t.name == "a"
  {
    Unrecognised(if side == PairA then "a" else "b")
  }

  /** The side argument the engine expects. */
  function ScorerTagFor(side: Side): (t: ScorerTag)
    ensures PadelRules.ScorerSideOf(t) == side && PadelRules.OtherSide(t) == side.Opponent()
  {
    assert PadelRules.ScorerSideOf(Pair(PairB)) == PairB;
    Pair(side)
  }

  /** The status update as written: it reads `winnerSide` on the engine's
      outcome, which has no such field, so only "scheduled" ever changes. */
  function NextStatusAsWritten(status: MatchStatus, outcome: PointOutcome): (r: MatchStatus)
    ensures r == Finished ==> status == Finished
    ensures r != Scheduled
    ensures status != Scheduled ==> r == status
  {
    if status == Scheduled then Live else status
  }

  /** The status update reading the winner from the new snapshot: a won
      match is finished, and a scheduled one becomes live. */
  function NextStatus(status: MatchStatus, outcome: PointOutcome): (r: MatchStatus)
    ensures r == Finished <==> (outcome.nextSnapshot.winnerSide.Some? || status == Finished)
    ensures r != Scheduled
    ensures outcome.nextSnapshot.winnerSide.None? && status != Scheduled ==> r == status
  {
    if outcome.nextSnapshot.winnerSide.Some? then Finished
    else if status == Scheduled then Live
    else status
  }

  /** The statistics update: a winner adds a winner and a point won, an
      unforced error adds an unforced error, other actions change nothing;
      a missing row is not created. */
  function BumpStats(stats: map<StatsKey, PlayerStats>, key: StatsKey, action: ActionType)
    : (r: map<StatsKey, PlayerStats>)
    ensures r.Keys == stats.Keys
    ensures forall k :: k in stats && k != key ==> r[k] == stats[k]
    ensures key in stats ==>
              && r[key].winners == stats[key].winners + (if action.Winner? then 1 else 0)
              && r[key].pointsWon == stats[key].pointsWon + (if action.Winner? then 1 else 0)
              && r[key].unforcedErrors == stats[key].unforcedErrors + (if action.UnforcedError? then 1 else 0)
              && r[key].totalPointsPlayed == stats[key].totalPointsPlayed
  {
    if key !in stats then stats
    else if action.Winner? then
      stats[key := stats[key].(winners := stats[key].winners + 1, pointsWon := stats[key].pointsWon + 1)]
    else if action.UnforcedError? then
      stats[key := stats[key].(unforcedErrors := stats[key].unforcedErrors + 1)]
    else stats
  }

  /** The column as the controller writes it: the whole outcome, which
      reads back as no snapshot at all. */
  function StoredAsWritten(outcome: PointOutcome): (r: StoredState)
    ensures r.StoredOutcome? && r.outcome == outcome
    ensures ReadBack(r).None?
  {
    StoredOutcome(outcome)
  }

  /** The column holding the new snapshot: reading it back gives exactly
      the snapshot written. */
  function Stored(outcome: PointOutcome): (r: StoredState)
    ensures ReadBack(r) == Some(outcome.nextSnapshot)
  {
    StoredSnapshot(outcome.nextSnapshot)
  }

  /** The snapshot the controller hands to the engine when it casts the
      column: an outcome has none of a snapshot's fields at its top level. */
  function ReadBack(column: StoredState): Option<MatchSnapshot> {
    match column
    case StoredSnapshot(c) => Some(c)
    case StoredOutcome(_) => None
  }

  /** `processPointScored` as a function of the store and the request, for
      a given engine, status rule and column writer; the controller as
      written uses `NextStatusAsWritten` and `StoredAsWritten`. No error
      writes anything; a successful point rewrites only its own match row
      and at most its player's statistics row. */
  function PointScored(engine: Engine, rule: StatusRule, write: ColumnWriter, s: StoreState, matchId: int,
                       playerId: int, action: ActionType): (p: Processed)
    ensures p.result.Err? || p.result == Ok(None) ==> p.store == s
    ensures p.store.matches.Keys == s.matches.Keys && p.store.stats.Keys == s.stats.Keys
    ensures forall k :: k in s.matches && k != matchId ==> p.store.matches[k] == s.matches[k]
    ensures forall k :: k in s.stats && k != (matchId, playerId) ==> p.store.stats[k] == s.stats[k]
  {
    if matchId !in s.matches then Processed(s, Err(MatchNotFound))
    else
      var m := s.matches[matchId];
      if m.status == Finished then Processed(s, Ok(None))
      else
        match ResolvePlayerSide(m, playerId)
        case Err(e) => Processed(s, Err(e))
        case Ok(playerSide) =>
          var scorer := ScorerSide(playerSide, action);
          match ReadBack(m.matchState)
          case None => Processed(s, Err(StateNotASnapshot))
          case Some(current) =>
            match engine(current, scorer)
            case Err(e) => Processed(s, Err(EngineRejected(e)))
            case Ok(outcome) =>
              var row := m.(matchState := write(outcome), status := rule(m.status, outcome));
              Processed(
                StoreState(s.matches[matchId := row], BumpStats(s.stats, (matchId, playerId), action)),
                Ok(Some(MatchUpdate(matchId, outcome, LastAction(playerId, action, scorer)))))
  }

  /** The `matches` and `match_stats` tables. */
  class MatchStore {
    var matches: map<int, MatchRecord>
    var stats: map<StatsKey, PlayerStats>

    function Value(): StoreState
      reads this
    {
      StoreState(matches, stats)
    }

    constructor (initial: StoreState)
      ensures Value() == initial
    {
      matches := initial.matches;
      stats := initial.stats;
    }

    /** The transaction: the match row takes the whole outcome and the new
        status, and the player's statistics row, when it exists, is bumped.
        The test for a winner reads a field the outcome does not have, so
        its branch never runs and only "scheduled" changes. */
    method Commit(matchId: int, playerId: int, actionType: ActionType, m: MatchRecord, outcome: PointOutcome)
      modifies this
      ensures matches == old(matches)[matchId := m.(matchState := StoredAsWritten(outcome),
                                                   status := NextStatusAsWritten(m.status, outcome))]
      ensures stats == BumpStats(old(stats), (matchId, playerId), actionType)
    {
      var newStatus := m.status;
      if m.status == Scheduled {
        newStatus := Live;
      }
      matches := matches[matchId := m.(matchState := StoredOutcome(outcome), status := newStatus)];

      var key := (matchId, playerId);
      if key in stats {
        var row := stats[key];
        if actionType.Winner? {
          stats := stats[key := row.(winners := row.winners + 1, pointsWon := row.pointsWon + 1)];
        } else if actionType.UnforcedError? {
          stats := stats[key := row.(unforcedErrors := row.unforcedErrors + 1)];
        }
      }
    }

    /** `processPointScored`, with the status rule and the column as
        written. */
    method ProcessPointScored(engine: Engine, matchId: int, playerId: int, actionType: ActionType)
      returns (r: Result<Option<MatchUpdate>, ControllerError>)
      modifies this
      ensures var p := PointScored(engine, NextStatusAsWritten, StoredAsWritten, old(Value()), matchId, playerId,
                                   actionType);
              Value() == p.store && r == p.result
    {
      if matchId !in matches {
        return Err(MatchNotFound);
      }
      var m := matches[matchId];
      if m.status == Finished {
        return Ok(None);
      }

      var playerSide: Side;
      if m.player1Id == Some(playerId) || m.player2Id == Some(playerId) {
        playerSide := PairA;
      } else if m.player3Id == Some(playerId) || m.player4Id == Some(playerId) {
        playerSide := PairB;
      } else {
        return Err(PlayerNotInMatch);
      }

      var scorerSide: Side;
      if actionType.UnforcedError? {
        scorerSide := playerSide.Opponent();
      } else {
        scorerSide := playerSide;
      }

      var currentState: MatchSnapshot;
      match m.matchState {
        case StoredSnapshot(c) =>
          currentState := c;
        case StoredOutcome(_) =>
          return Err(StateNotASnapshot);
      }

      var nextState := engine(currentState, scorerSide);
      if nextState.Err? {
        return Err(EngineRejected(nextState.error));
      }
      var outcome := nextState.value;

      Commit(matchId, playerId, actionType, m, outcome);

      r := Ok(Some(MatchUpdate(matchId, outcome, LastAction(playerId, actionType, scorerSide))));
    }
  }
}
