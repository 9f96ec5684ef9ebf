/**
 XP and Elo settlement of debates, split at every await of the ranking and the
 profile service. A settlement pays its two players by two separate remote calls
 and then writes two history rows; any statement can fail, any reply can be lost,
 and settlements interleave.
 */
module Settlement {
  import opened Common
  import opened FinalScores
  import opened Elo
  import opened PlayerStats

  datatype Kind = XpKind | EloKind

  /**
   One applyPlayerStatsDelta request: sent, past its guard, past the insert of a missing
   row, applied, applied but with its reply lost, or refused without effect.
   */
  datatype ApplyState = Waiting | Guarded | Inserted | Applied | ReplyLost | Refused

  /** One write to the history table: not done, done on the row at this position, or in error. */
  datatype RecordState = Idle | Written(row: nat) | Rejected

  /** One player's half of a settlement. */
  datatype Leg = Leg(
    user: UserId, side: Side, result: Result, finalScore: int, opponentScore: int,
    xp: int, elo: int,
    apply: ApplyState, record: RecordState)

  datatype Call =
    | ReadingScore(kind: Kind, debate: string, forUser: UserId, againstUser: UserId)
    | ReadingStats(debate: string, forUser: UserId, againstUser: UserId, score: FinalRow,
                   forElo: Option<int>, againstElo: Option<int>)
    | Settling(kind: Kind, debate: string, forLeg: Leg, againstLeg: Leg)
    | PreconditionFailed

  /** A row of ranking_performances; `id` names the call that inserted it. */
  datatype Performance = Performance(
    id: nat, user: UserId, debate: string, side: Side, result: Result,
    finalScore: int, opponentScore: int, xpDelta: int, eloDelta: int)

  datatype Machine = Machine(
    pow: Power, scores: map<string, FinalRow>, table: seq<Stats>, rows: seq<Performance>, calls: seq<Call>)

  datatype Event =
    | PutScore(debate: string, row: FinalRow)
    | Begin(kind: Kind, debate: string, forUser: UserId, againstUser: UserId)
    | ReadScore(call: nat)
    | ReadStats(call: nat, side: Side)
    /** The next statement of one side's applyPlayerStatsDelta completes, or fails. */
    | Apply(call: nat, side: Side)
    | FailApply(call: nat, side: Side)
    | LoseReply(call: nat, side: Side)
    /** One side's history write completes, or fails. */
    | Record(call: nat, side: Side)
    | FailRecord(call: nat, side: Side)

  function Init(pow: Power): Machine {
    Machine(pow, map[], [], [], [])
  }

  // ----- values a settlement computes

  function XpLeg(u: UserId, side: Side, score: FinalRow): Leg {
    var result := ResultForSide(score.winner, side);
    var mine := if side == FOR then score.finalFor else score.finalAgainst;
    var theirs := if side == FOR then score.finalAgainst else score.finalFor;
    Leg(u, side, result, mine, theirs, XpDelta(result, mine), 0, Waiting, Idle)
  }

  function XpSettlement(debate: string, f: UserId, a: UserId, score: FinalRow): Call {
    Settling(XpKind, debate, XpLeg(f, FOR, score), XpLeg(a, AGAINST, score))
  }

  /** Elo is computed once, for the FOR player; AGAINST gets its negative. */
  function EloSettlement(pow: Power, debate: string, f: UserId, a: UserId, score: FinalRow, fElo: int, aElo: int): Call
  {
    var delta := EloDelta(pow, fElo, aElo, ResultForSide(score.winner, FOR));
    Settling(EloKind, debate,
             XpLeg(f, FOR, score).(xp := 0, elo := delta), XpLeg(a, AGAINST, score).(xp := 0, elo := -delta))
  }

  function LegOf(call: Call, side: Side): Leg
    requires call.Settling?
  {
    if side == FOR then call.forLeg else call.againstLeg
  }

  function WithLeg(call: Call, side: Side, leg: Leg): Call
    requires call.Settling?
  {
    if side == FOR then call.(forLeg := leg) else call.(againstLeg := leg)
  }

  function Put(m: Machine, c: nat, call: Call): Machine
    requires c < |m.calls|
  {
    m.(calls := m.calls[c := call])
  }

  // ----- history table

  function RowIndex(rows: seq<Performance>, u: UserId, debate: string): (k: nat)
    ensures k <= |rows|
    ensures k < |rows| ==> rows[k].user == u && rows[k].debate == debate
    ensures forall i :: 0 <= i < k ==> rows[i].user != u || rows[i].debate != debate
  {
    if rows == [] then 0
    else if rows[0].user == u && rows[0].debate == debate then 0
    else 1 + RowIndex(rows[1..], u, debate)
  }

  function RowFor(id: nat, debate: string, leg: Leg): Performance {
    Performance(id, leg.user, debate, leg.side, leg.result, leg.finalScore, leg.opponentScore, leg.xp, 0)
  }

  // ----- steps

  function Step(m: Machine, e: Event): Machine {
    match e
    case PutScore(d, row) => if RowOk(row) then m.(scores := m.scores[d := row]) else m
    case Begin(kind, d, f, a) => if f == a then m else m.(calls := m.calls + [ReadingScore(kind, d, f, a)])
    case ReadScore(c) => if c < |m.calls| && m.calls[c].ReadingScore? then StepReadScore(m, c) else m
    case ReadStats(c, side) => if c < |m.calls| && m.calls[c].ReadingStats? then StepReadStats(m, c, side) else m
    case Apply(c, side) => if c < |m.calls| && m.calls[c].Settling? then StepApply(m, c, side) else m
    case FailApply(c, side) =>
      if c < |m.calls| && m.calls[c].Settling? && CanFail(LegOf(m.calls[c], side).apply)
      then SetApply(m, c, side, Refused) else m
    case LoseReply(c, side) =>
      if c < |m.calls| && m.calls[c].Settling? && LegOf(m.calls[c], side).apply == Applied
         && m.calls[c].forLeg.record == Idle && m.calls[c].againstLeg.record == Idle
      then SetApply(m, c, side, ReplyLost) else m
    case Record(c, side) => if c < |m.calls| && MayRecord(m.calls[c], side) then StepRecord(m, c, side) else m
    case FailRecord(c, side) =>
      if c < |m.calls| && MayRecord(m.calls[c], side) then SetRecord(m, c, side, Rejected) else m
  }

  function StepReadScore(m: Machine, c: nat): Machine
    requires c < |m.calls| && m.calls[c].ReadingScore?
  {
    var ReadingScore(kind, d, f, a) := m.calls[c];
    if d !in m.scores then Put(m, c, PreconditionFailed)
    else if kind == XpKind then Put(m, c, XpSettlement(d, f, a, m.scores[d]))
    else Put(m, c, ReadingStats(d, f, a, m.scores[d], None, None))
  }

  /** Two parallel reads; the call goes on when both have answered. */
  function StepReadStats(m: Machine, c: nat, side: Side): Machine
    requires c < |m.calls| && m.calls[c].ReadingStats?
  {
    var ReadingStats(d, f, a, score, fElo, aElo) := m.calls[c];
    var k := Index(m.table, if side == FOR then f else a);
    if k == |m.table| then Put(m, c, PreconditionFailed)
    else
      var fElo' := if side == FOR then Some(m.table[k].elo) else fElo;
      var aElo' := if side == FOR then aElo else Some(m.table[k].elo);
      if fElo'.Some? && aElo'.Some? then Put(m, c, EloSettlement(m.pow, d, f, a, score, fElo'.value, aElo'.value))
      else Put(m, c, ReadingStats(d, f, a, score, fElo', aElo'))
  }

  predicate CanFail(s: ApplyState) {
    s == Waiting || s == Guarded || s == Inserted
  }

  function SetApply(m: Machine, c: nat, side: Side, s: ApplyState): Machine
    requires c < |m.calls| && m.calls[c].Settling?
  {
    Put(m, c, WithLeg(m.calls[c], side, LegOf(m.calls[c], side).(apply := s)))
  }

  function SetRecord(m: Machine, c: nat, side: Side, s: RecordState): Machine
    requires c < |m.calls| && m.calls[c].Settling?
  {
    Put(m, c, WithLeg(m.calls[c], side, LegOf(m.calls[c], side).(record := s)))
  }

  function StepApply(m: Machine, c: nat, side: Side): Machine
    requires c < |m.calls| && m.calls[c].Settling?
  {
    var leg := LegOf(m.calls[c], side);
    match leg.apply
    case Waiting =>
      if CurrentElo(m.table, leg.user) + leg.elo < 0 then SetApply(m, c, side, Refused)
      else SetApply(m, c, side, Guarded)
    case Guarded => SetApply(m.(table := InsertMissing(m.table, leg.user)), c, side, Inserted)
    case Inserted =>
      (match Increment(m.table, leg.user, leg.xp, leg.elo, leg.result)
       case None => SetApply(m, c, side, Refused)
       case Some(t) => SetApply(m.(table := t), c, side, Applied))
    case _ => m
  }

  /** The history writes start once both players' requests have answered without error. */
  predicate MayRecord(call: Call, side: Side) {
    call.Settling? && call.forLeg.apply == Applied && call.againstLeg.apply == Applied
    && LegOf(call, side).record == Idle
  }

  function StepRecord(m: Machine, c: nat, side: Side): Machine
    requires c < |m.calls| && MayRecord(m.calls[c], side)
  {
    var call := m.calls[c];
    var leg := LegOf(call, side);
    var k := RowIndex(m.rows, leg.user, call.debate);
    match call.kind
    case XpKind =>
      if k < |m.rows| then SetRecord(m, c, side, Rejected)
      else SetRecord(m.(rows := m.rows + [RowFor(c, call.debate, leg)]), c, side, Written(k))
    case EloKind =>
      if k < |m.rows| then SetRecord(m.(rows := m.rows[k := m.rows[k].(eloDelta := leg.elo)]), c, side, Written(k))
      else SetRecord(m, c, side, Rejected)
  }

  // ----- what each call has paid and recorded

  predicate Paid(leg: Leg) {
    leg.apply == Applied || leg.apply == ReplyLost
  }

  function LegXpPaid(leg: Leg, u: UserId): int {
    if leg.user == u && Paid(leg) then leg.xp else 0
  }

  function LegGamesPaid(leg: Leg, u: UserId): int {
    if leg.user == u && Paid(leg) then 1 else 0
  }

  function LegEloPaid(leg: Leg, u: UserId): int {
    if leg.user == u && Paid(leg) then leg.elo else 0
  }

  function XpPaid(u: UserId): Call -> int {
    (c: Call) => if c.Settling? then LegXpPaid(c.forLeg, u) + LegXpPaid(c.againstLeg, u) else 0
  }

  function GamesPaid(u: UserId): Call -> int {
    (c: Call) => if c.Settling? then LegGamesPaid(c.forLeg, u) + LegGamesPaid(c.againstLeg, u) else 0
  }

  function EloPaid(u: UserId): Call -> int {
    (c: Call) => if c.Settling? then LegEloPaid(c.forLeg, u) + LegEloPaid(c.againstLeg, u) else 0
  }

  /** What a call has added to the Elo of all players together. */
  function NetElo(): Call -> int {
    (c: Call) => if c.Settling? then (if Paid(c.forLeg) then c.forLeg.elo else 0)
                                     + (if Paid(c.againstLeg) then c.againstLeg.elo else 0) else 0
  }

  /** One for an Elo settlement that reached exactly one of its two players. */
  function HalfPaid(): Call -> int {
    (c: Call) => if c.Settling? && c.kind == EloKind && Paid(c.forLeg) != Paid(c.againstLeg) then 1 else 0
  }

  function LegWritten(leg: Leg, u: UserId, amount: int): int {
    if leg.user == u && leg.record.Written? then amount else 0
  }

  function XpRecorded(u: UserId): Call -> int {
    (c: Call) => if c.Settling? && c.kind == XpKind
                 then LegWritten(c.forLeg, u, c.forLeg.xp) + LegWritten(c.againstLeg, u, c.againstLeg.xp) else 0
  }

  function GamesRecorded(u: UserId): Call -> int {
    (c: Call) => if c.Settling? && c.kind == XpKind
                 then LegWritten(c.forLeg, u, 1) + LegWritten(c.againstLeg, u, 1) else 0
  }

  function EloRecorded(u: UserId): Call -> int {
    (c: Call) => if c.Settling? && c.kind == EloKind
                 then LegWritten(c.forLeg, u, c.forLeg.elo) + LegWritten(c.againstLeg, u, c.againstLeg.elo) else 0
  }

  function EloSettled(u: UserId): Call -> int {
    (c: Call) => if c.Settling? && c.kind == EloKind
                 then LegWritten(c.forLeg, u, 1) + LegWritten(c.againstLeg, u, 1) else 0
  }

  function RowXp(u: UserId): Performance -> int {
    (p: Performance) => if p.user == u then p.xpDelta else 0
  }

  function RowCount(u: UserId): Performance -> int {
    (p: Performance) => if p.user == u then 1 else 0
  }

  function RowElo(u: UserId): Performance -> int {
    (p: Performance) => if p.user == u then p.eloDelta else 0
  }
}
