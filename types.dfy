/** Domain types shared by both scoring engines, the point controller and the
    real-time layer: sides, point values, the match snapshot and the records a
    scoring transition produces (src/types/padel.ts). */
module PadelTypes {

  datatype Option<+T> = None | Some(value: T) {
    function GetOr(default: T): T {
      match this
      case Some(v) => v
      case None => default
    }
  }

  datatype Result<+T, +E> = Ok(value: T) | Err(error: E)

  /** One of the two pairs of a match ("pair_a" / "pair_b"). */
  datatype Side = PairA | PairB {
    function Opponent(): (o: Side)
      ensures o != this
    {
      if this == PairA then PairB else PairA
    }
  }

  /** A side name other than "pair_a" and "pair_b". */
  type ForeignName = name: string | name != "pair_a" && name != "pair_b" witness "a"

  /** The side argument as the older engine receives it: a string that is
      compared with "pair_a" and "pair_b"; any other string is kept as it
      was sent, since the history record repeats it. */
  datatype ScorerTag = Pair(side: Side) | Unrecognised(name: ForeignName)

  /** A stored point value: "0", "15", "30", "40", "AD", or, in a tie-break,
      the decimal string of a point count. */
  datatype PointValue = Zero | Fifteen | Thirty | Forty | Ad | TB(n: nat)

  /** A point value is one string, so a tie-break count of 0, 15, 30 or 40 is
      the same value as the standard score with that spelling. */
  type Score = p: PointValue | !p.TB? || (p.n != 0 && p.n != 15 && p.n != 30 && p.n != 40)
    witness Zero

  /** `n.toString()` read back as a point value. */
  function ScoreOf(n: nat): (s: Score)
    ensures s != Ad
  {
    if n == 0 then Zero
    else if n == 15 then Fifteen
    else if n == 30 then Thirty
    else if n == 40 then Forty
    else TB(n)
  }

  /** `parseInt` of a point value; `None` stands for NaN (the string "AD"). */
  function ParseInt(s: Score): (r: Option<nat>)
    ensures r.None? <==> s == Ad
  {
    match s
    case Zero => Some(0)
    case Fifteen => Some(15)
    case Thirty => Some(30)
    case Forty => Some(40)
    case Ad => None
    case TB(n) => Some(n)
  }

  /** `parseInt(s) || 0`: NaN falls back to 0. */
  function ParseOrZero(s: Score): nat {
    ParseInt(s).GetOr(0)
  }

  /** Writing a count and parsing it back gives the count. */
  lemma ParseScoreOf(n: nat)
    ensures ParseInt(ScoreOf(n)) == Some(n)
  {
  }

  /** Parsing a numeric value and writing it back gives the same value. */
  lemma ScoreOfParse(s: Score)
    requires s != Ad
    ensures ScoreOf(ParseInt(s).value) == s
  {
  }

  /** The standard ladder lookup `NEXT_POINT[s] || "40"`. */
  function NextPoint(s: Score): Score {
    match s
    case Zero => Fifteen
    case Fifteen => Thirty
    case Thirty => Forty
    case _ => Forty
  }

  /** Position on the ladder 0, 15, 30, 40. */
  function LadderRank(s: Score): nat {
    match s
    case Zero => 0
    case Fifteen => 1
    case Thirty => 2
    case _ => 3
  }

  /** Below 40 the ladder moves exactly one rung: it never skips or repeats. */
  lemma NextPointClimbsOneRung(s: Score)
    requires s == Zero || s == Fifteen || s == Thirty
    ensures LadderRank(NextPoint(s)) == LadderRank(s) + 1
    ensures NextPoint(s) != Ad && NextPoint(s).TB? == false
  {
  }

  datatype MatchStatus = Scheduled | Live | Finished

  datatype PointMethod =
    | Winner | UnforcedError | ForcedError | SmashPoint | VolleyPoint
    | ServiceAce | DoubleFault | Penalty

  datatype Stroke =
    | Forehand | Backhand | Smash | Bandeja | Vibora
    | VolleyForehand | VolleyBackhand | Lob | DropShot | WallBoast

  /** The state of one match. `pairASets` and `pairBSets` are read by the
      current engine's flags but written by no engine; `status` is written by
      the current engine when it finishes a match. */
  datatype MatchSnapshot = MatchSnapshot(
    id: int,
    pairAScore: Score,
    pairBScore: Score,
    pairAGames: nat,
    pairBGames: nat,
    currentSetIdx: nat,
    isTieBreak: bool,
    hasGoldPoint: bool,
    winnerSide: Option<Side>,
    status: MatchStatus,
    pairASets: nat,
    pairBSets: nat,
    servingPlayerId: Option<int>)
  {
    function Score(side: Side): Score {
      if side == PairA then pairAScore else pairBScore
    }

    function Games(side: Side): nat {
      if side == PairA then pairAGames else pairBGames
    }

    function Sets(side: Side): nat {
      if side == PairA then pairASets else pairBSets
    }
  }

  /** The point-history record of one transition. */
  datatype PointHistory = PointHistory(
    setNumber: int,
    gameNumber: int,
    pointNumber: int,
    winnerSide: ScorerTag,
    pointMethod: Option<PointMethod>,
    stroke: Option<Stroke>,
    isNetPoint: Option<bool>,
    scoreAfterPairA: Score,
    scoreAfterPairB: Score,
    isGamePoint: bool,
    isSetPoint: bool,
    isMatchPoint: bool)

  /** The record of a finished set. */
  datatype CompletedSet = CompletedSet(
    setNumber: nat,
    pairAGames: nat,
    pairBGames: nat,
    tieBreakPairAPoints: Option<nat>,
    tieBreakPairBPoints: Option<nat>)
  {
    function Games(side: Side): nat {
      if side == PairA then pairAGames else pairBGames
    }

    function TieBreakPoints(side: Side): Option<nat> {
      if side == PairA then tieBreakPairAPoints else tieBreakPairBPoints
    }
  }

  datatype PointOutcome = PointOutcome(
    nextSnapshot: MatchSnapshot,
    history: PointHistory,
    setCompleted: Option<CompletedSet>)

  datatype EngineError = MatchAlreadyFinished

  /** Pre-point game, set and match point flags. */
  datatype Flags = Flags(isGamePoint: bool, isSetPoint: bool, isMatchPoint: bool)

  /** A tie-break count pair is decided once one side has 7 or more points
      and leads by 2 or more. */
  predicate Decided(a: nat, b: nat) {
    (a >= 7 && a - b >= 2) || (b >= 7 && b - a >= 2)
  }

  predicate StandardScore(p: Score) {
    p == Zero || p == Fifteen || p == Thirty || p == Forty || p == Ad
  }

  /** The snapshots reachable by play from the start of a set: an unfinished
      set of a live match. Outside a tie-break, games are at most 6 each, not
      6-6 and not a finished 6-x, scores are on the standard ladder and "AD"
      only appears against "40"; in a tie-break, games are 6-6, both counts
      parse and the tie-break is not yet decided. */
  predicate InPlay(s: MatchSnapshot) {
    && s.winnerSide.None?
    && if s.isTieBreak then
         && s.pairAGames == 6 && s.pairBGames == 6
         && s.pairAScore != Ad && s.pairBScore != Ad
         && !Decided(ParseInt(s.pairAScore).value, ParseInt(s.pairBScore).value)
       else
         && s.pairAGames <= 6 && s.pairBGames <= 6
         && !(s.pairAGames == 6 && s.pairBGames == 6)
         && !(s.pairAGames == 6 && s.pairBGames <= 4)
         && !(s.pairBGames == 6 && s.pairAGames <= 4)
         && StandardScore(s.pairAScore) && StandardScore(s.pairBScore)
         && (s.pairAScore == Ad ==> s.pairBScore == Forty)
         && (s.pairBScore == Ad ==> s.pairAScore == Forty)
  }

  /** No side holds "AD". */
  predicate NoAdvantage(s: MatchSnapshot) {
    s.pairAScore != Ad && s.pairBScore != Ad
  }

  /** The mutable shallow copy `{ ...current }` that the engines' helpers
      update field by field. */
  class SnapshotCopy {
    var id: int
    var pairAScore: Score
    var pairBScore: Score
    var pairAGames: nat
    var pairBGames: nat
    var currentSetIdx: nat
    var isTieBreak: bool
    var hasGoldPoint: bool
    var winnerSide: Option<Side>
    var status: MatchStatus
    var pairASets: nat
    var pairBSets: nat
    var servingPlayerId: Option<int>

    /** The snapshot the copy currently holds. */
    function Value(): MatchSnapshot
      reads this
    {
      MatchSnapshot(id, pairAScore, pairBScore, pairAGames, pairBGames, currentSetIdx,
        isTieBreak, hasGoldPoint, winnerSide, status, pairASets, pairBSets, servingPlayerId)
    }

    constructor (s: MatchSnapshot)
      ensures Value() == s
    {
      id := s.id;
      pairAScore := s.pairAScore;
      pairBScore := s.pairBScore;
      pairAGames := s.pairAGames;
      pairBGames := s.pairBGames;
      currentSetIdx := s.currentSetIdx;
      isTieBreak := s.isTieBreak;
      hasGoldPoint := s.hasGoldPoint;
      winnerSide := s.winnerSide;
      status := s.status;
      pairASets := s.pairASets;
      pairBSets := s.pairBSets;
      servingPlayerId := s.servingPlayerId;
    }
  }
}
