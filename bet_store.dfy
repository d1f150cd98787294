/** The global bet store: the list of placed bets and the counters of
    sequence attempts that the live engine reports to. */
module BetStore {
  import opened Bets

  datatype SequenceStats = SequenceStats(
    totalSequences: int,
    successfulSequences: int,
    failedSequences: int,
    totalEarnings: real,
    totalSpent: real)

  const ZeroStats := SequenceStats(0, 0, 0, 0.0, 0.0)

  /** Every attempt counted is counted as exactly one success or one failure. */
  predicate Balanced(s: SequenceStats) {
    && s.totalSequences == s.successfulSequences + s.failedSequences
    && s.successfulSequences >= 0 && s.failedSequences >= 0
  }

  /** One call of `recordSequenceAttempt(success, earnings, stake)`. */
  datatype Attempt = Attempt(success: bool, earnings: real, stake: real)

  /** The new counters after one attempt. */
  function Record(s: SequenceStats, a: Attempt): (r: SequenceStats)
    ensures Balanced(s) ==> Balanced(r)
    ensures r.totalSequences == s.totalSequences + 1
  {
    SequenceStats(
      s.totalSequences + 1,
      s.successfulSequences + (if a.success then 1 else 0),
      s.failedSequences + (if a.success then 0 else 1),
      s.totalEarnings + (a.earnings - a.stake),
      s.totalSpent + a.stake)
  }

  /** The counters after recording `attempts` in order, starting from `s`. */
  function Replay(s: SequenceStats, attempts: seq<Attempt>): SequenceStats
    decreases |attempts|
  {
    if |attempts| == 0 then s else Replay(Record(s, attempts[0]), attempts[1..])
  }

  function Successes(attempts: seq<Attempt>): nat
    decreases |attempts|
  {
    if |attempts| == 0 then 0 else (if attempts[0].success then 1 else 0) + Successes(attempts[1..])
  }

  function Stakes(attempts: seq<Attempt>): real
    decreases |attempts|
  {
    if |attempts| == 0 then 0.0 else attempts[0].stake + Stakes(attempts[1..])
  }

  function Earnings(attempts: seq<Attempt>): real
    decreases |attempts|
  {
    if |attempts| == 0 then 0.0 else attempts[0].earnings + Earnings(attempts[1..])
  }

  /** What the counters hold after any history of attempts: one sequence per
      attempt, successes and failures split by outcome, all stakes spent, and
      earnings net of stakes. In particular total = successful + failed. */
  lemma {:induction false} ReplayTotals(s: SequenceStats, attempts: seq<Attempt>)
    ensures var r := Replay(s, attempts);
      && r.totalSequences == s.totalSequences + |attempts|
      && r.successfulSequences == s.successfulSequences + Successes(attempts)
      && r.failedSequences == s.failedSequences + (|attempts| - Successes(attempts))
      && r.totalSpent == s.totalSpent + Stakes(attempts)
      && r.totalEarnings == s.totalEarnings + Earnings(attempts) - Stakes(attempts)
      && (Balanced(s) ==> Balanced(r))
    decreases |attempts|
  {
    if attempts != [] {
      ReplayTotals(Record(s, attempts[0]), attempts[1..]);
    }
  }

  class Store {
    var placedBets: seq<PlacedBet>
    var sequenceStats: SequenceStats

    ghost predicate Valid()
      reads this
    {
      Balanced(sequenceStats)
    }

    constructor ()
      ensures placedBets == [] && sequenceStats == ZeroStats
      ensures Valid()
    {
      placedBets := [];
      sequenceStats := ZeroStats;
    }

    method AddBet(bet: PlacedBet)
      requires Valid()
      modifies this
      ensures Valid()
      ensures placedBets == old(placedBets) + [bet]
      ensures sequenceStats == old(sequenceStats)
    {
      placedBets := placedBets + [bet];
    }

    method UpdateBet(betId: string, updates: BetUpdate)
      requires Valid()
      modifies this
      ensures Valid()
      ensures placedBets == UpdateById(old(placedBets), betId, updates)
      ensures sequenceStats == old(sequenceStats)
    {
      placedBets := UpdateById(placedBets, betId, updates);
    }

    method RemoveBet(betId: string)
      requires Valid()
      modifies this
      ensures Valid()
      ensures placedBets == RemoveById(old(placedBets), betId)
      ensures sequenceStats == old(sequenceStats)
    {
      placedBets := RemoveById(placedBets, betId);
    }

    method ClearBets()
      requires Valid()
      modifies this
      ensures Valid()
      ensures placedBets == []
      ensures sequenceStats == old(sequenceStats)
    {
      placedBets := [];
    }

    method RecordSequenceAttempt(success: bool, earnings: real, stake: real)
      requires Valid()
      modifies this
      ensures Valid()
      ensures sequenceStats == Record(old(sequenceStats), Attempt(success, earnings, stake))
      ensures placedBets == old(placedBets)
    {
      sequenceStats := Record(sequenceStats, Attempt(success, earnings, stake));
    }

    method ResetStats()
      requires Valid()
      modifies this
      ensures Valid()
      ensures sequenceStats == ZeroStats
      ensures placedBets == old(placedBets)
    {
      sequenceStats := ZeroStats;
    }
  }
}
