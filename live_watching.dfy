/** The live session engine: the outcomes of the sequence are checked one at
    a time; a hit scores points and moves on, a miss loses points, counts a
    failed run and restarts the sequence; a full pass pays the stake times the
    product of the odds, with a length bonus, and starts the sequence again,
    until the three-minute session clock runs out. Whether an outcome happened
    is a parameter, and the timers of the component are explicit methods. */
module LiveWatching {
  import opened Wrappers
  import opened Text
  import opened Outcomes
  import Payout
  import BetStore

  /** Length of a session in seconds. */
  const GameDuration: int := 180
  const PointsPerHit: int := 100
  const PointsPerMiss: int := 50

  /** Position of the first pending outcome (`find(o => o.status === 'pending')`). */
  function FirstPending(s: seq<Outcome>): (r: Option<nat>)
    ensures r.Some? ==> r.value < |s| && IsPending(s[r.value])
    ensures r.Some? ==> forall j :: 0 <= j < r.value ==> !IsPending(s[j])
    ensures r.None? <==> forall j :: 0 <= j < |s| ==> !IsPending(s[j])
    decreases |s|
  {
    if |s| == 0 then None
    else if IsPending(s[0]) then Some(0)
    else match FirstPending(s[1..])
      case None => None
      case Some(i) => Some(i + 1)
  }

  /** Every outcome with the given id goes to checking; nothing else changes. */
  function MarkChecking(s: seq<Outcome>, id: string): (r: seq<Outcome>)
    ensures |r| == |s|
    ensures forall k :: 0 <= k < |s| && s[k].id != id ==> r[k] == s[k]
    ensures forall k :: 0 <= k < |s| && s[k].id == id ==>
      r[k].status == Checking && r[k].(status := s[k].status) == s[k]
  {
    seq(|s|, k requires 0 <= k < |s| => if s[k].id == id then s[k].(status := Checking) else s[k])
  }

  /** Every outcome with the given id is settled as a hit or a miss; nothing else changes. */
  function Resolve(s: seq<Outcome>, id: string, happened: bool): (r: seq<Outcome>)
    ensures |r| == |s|
    ensures forall k :: 0 <= k < |s| && s[k].id != id ==> r[k] == s[k]
    ensures forall k :: 0 <= k < |s| && s[k].id == id ==>
      && IsResolved(r[k]) && (r[k].status == Success <==> happened) && r[k].result == Some(happened)
      && r[k].(status := s[k].status, result := s[k].result) == s[k]
  {
    seq(|s|, k requires 0 <= k < |s| =>
      if s[k].id == id then s[k].(status := if happened then Success else Failed, result := Some(happened))
      else s[k])
  }

  /** Every outcome back to pending with no result; order, ids and odds are kept. */
  function ResetAll(s: seq<Outcome>): (r: seq<Outcome>)
    ensures |r| == |s|
    ensures forall k :: 0 <= k < |s| ==>
      IsPending(r[k]) && r[k].result.None? && r[k].(status := s[k].status, result := s[k].result) == s[k]
  {
    seq(|s|, k requires 0 <= k < |s| => s[k].(status := Pending, result := None))
  }

  /** When ids are distinct, marking the first pending outcome by its id changes that outcome alone. */
  lemma MarkCheckingDistinct(s: seq<Outcome>, i: nat)
    requires DistinctIds(s) && i < |s|
    ensures MarkChecking(s, s[i].id) == s[i := s[i].(status := Checking)]
  {
  }

  /** When ids are distinct, settling an outcome by its id changes that outcome alone. */
  lemma ResolveDistinct(s: seq<Outcome>, i: nat, happened: bool)
    requires DistinctIds(s) && i < |s|
    ensures Resolve(s, s[i].id, happened) ==
      s[i := s[i].(status := if happened then Success else Failed, result := Some(happened))]
  {
  }

  /** After a restart the first outcome is the next to be checked. */
  lemma ResetAllStartsOver(s: seq<Outcome>)
    requires s != []
    ensures FirstPending(ResetAll(s)) == Some(0)
  {
  }

  /** The history line of a settled outcome (`correct: o.result || false`). */
  function ToResult(o: Outcome): BetResult {
    BetResult(o.id, o.description, o.result.GetOr(false), o.odds)
  }

  /** The history reported at the end: the settled outcomes, in sequence order. */
  function History(s: seq<Outcome>): (r: seq<BetResult>)
    ensures |r| <= |s|
    decreases |s|
  {
    if |s| == 0 then []
    else (if IsResolved(s[0]) then [ToResult(s[0])] else []) + History(s[1..])
  }

  lemma {:induction false} HistoryAppend(s: seq<Outcome>, t: seq<Outcome>)
    ensures History(s + t) == History(s) + History(t)
    decreases |s|
  {
    if s == [] {
      assert s + t == t;
    } else {
      var head := if IsResolved(s[0]) then [ToResult(s[0])] else [];
      assert (s + t)[0] == s[0];
      assert (s + t)[1..] == s[1..] + t;
      assert History(s + t) == head + History(s[1..] + t);
      HistoryAppend(s[1..], t);
      assert History(s) == head + History(s[1..]);
    }
  }

  /** A line is in the history exactly when some settled outcome produced it. */
  lemma {:induction false} HistoryMembers(s: seq<Outcome>, b: BetResult)
    ensures b in History(s) <==> exists k :: 0 <= k < |s| && IsResolved(s[k]) && ToResult(s[k]) == b
    decreases |s|
  {
    if s != [] {
      HistoryMembers(s[1..], b);
      if exists k :: 0 <= k < |s| && IsResolved(s[k]) && ToResult(s[k]) == b {
        var k :| 0 <= k < |s| && IsResolved(s[k]) && ToResult(s[k]) == b;
        if k > 0 {
          assert s[1..][k - 1] == s[k];
        }
      }
      if b in History(s[1..]) {
        var k :| 0 <= k < |s[1..]| && IsResolved(s[1..][k]) && ToResult(s[1..][k]) == b;
        assert s[k + 1] == s[1..][k];
      }
    }
  }

  /** Nothing settled, nothing reported: in particular right after a restart. */
  lemma {:induction false} HistoryOfUnsettled(s: seq<Outcome>)
    requires forall k :: 0 <= k < |s| ==> !IsResolved(s[k])
    ensures History(s) == []
    decreases |s|
  {
    if s != [] {
      HistoryOfUnsettled(s[1..]);
    }
  }

  /** A sequence that went through entirely reports every outcome as correct. */
  lemma {:induction false} HistoryOfFullPass(s: seq<Outcome>)
    requires forall k :: 0 <= k < |s| ==> s[k].status == Success && s[k].result == Some(true)
    ensures |History(s)| == |s|
    ensures forall k :: 0 <= k < |s| ==> History(s)[k] == BetResult(s[k].id, s[k].description, true, s[k].odds)
    decreases |s|
  {
    if s != [] {
      HistoryOfFullPass(s[1..]);
      forall k | 1 <= k < |s|
        ensures History(s)[k] == BetResult(s[k].id, s[k].description, true, s[k].odds)
      {
        assert History(s)[k] == History(s[1..])[k - 1];
        assert s[1..][k - 1] == s[k];
      }
    }
  }

  /** Reordering the sequence never changes what a full pass pays. */
  lemma MoveKeepsPayout(stake: real, s: seq<Outcome>, from: nat, to: nat)
    requires from < |s| && to < |s|
    ensures Payout.Profit(stake, Move(s, from, to)) == Payout.Profit(stake, s)
  {
    Payout.ProfitOrderIndependent(stake, Move(s, from, to), s);
  }

  /** Restarting never changes what a full pass pays. */
  lemma {:induction false} ResetKeepsPayout(s: seq<Outcome>)
    ensures Payout.Product(ResetAll(s), Payout.Odds) == Payout.Product(s, Payout.Odds)
    decreases |s|
  {
    if s != [] {
      assert ResetAll(s)[1..] == ResetAll(s[1..]);
      ResetKeepsPayout(s[1..]);
    }
  }

  /** Length of the settled prefix: the streak loop stops at the first outcome
      that is still pending or being checked. */
  function SettledPrefix(s: seq<Outcome>): (n: nat)
    ensures n <= |s|
    ensures forall j :: 0 <= j < n ==> IsResolved(s[j])
    ensures n < |s| ==> !IsResolved(s[n])
    decreases |s|
  {
    if s == [] || !IsResolved(s[0]) then 0 else 1 + SettledPrefix(s[1..])
  }

  predicate AllSucceeded(s: seq<Outcome>) {
    forall k :: 0 <= k < |s| ==> s[k].status == Success
  }

  /** Max(0, p - 50), the points after a miss. */
  function AfterMiss(points: int): (r: int)
    ensures r >= 0 && r <= if points > 0 then points else 0
  {
    if points - PointsPerMiss > 0 then points - PointsPerMiss else 0
  }

  /** `${template.id}-${Date.now()}` with the clock reading as a parameter. */
  function OutcomeId(templateId: string, now: int): string {
    templateId + "-" + IntToString(now)
  }

  /** The outcome added during a session: the match names are filled in, then
      the selected player, if any. The odds are the template's own; no player
      modifier is applied here. */
  function LiveOutcome(t: Template, player1: string, player2: string, player: Option<string>, now: int): (o: Outcome)
    ensures o.id == OutcomeId(t.id, now) && o.category == t.category
    ensures o.odds == t.odds && o.timeLimit == t.timeLimit
    ensures o.status == Pending && o.result.None?
    ensures var named := ReplaceFirst(ReplaceFirst(t.description, "{player1}", player1), "{player2}", player2);
      o.description == (if player.Some? then ReplaceFirst(named, "{playerName}", player.value) else named)
  {
    var named := ReplaceFirst(ReplaceFirst(t.description, "{player1}", player1), "{player2}", player2);
    var description := match player
      case Some(name) => ReplaceFirst(named, "{playerName}", name)
      case None => named;
    Outcome(OutcomeId(t.id, now), t.category, description, t.odds, t.timeLimit, Pending, None)
  }

  /** What `resolveOutcome` schedules next. */
  datatype Next =
    | RestartAfterMiss    // reset after 2 s, then process the next outcome after 1 s
    | RestartAfterPass    // the same after a full pass
    | ProcessNext         // process the next outcome after 0.5 s

  class LiveSession {
    const player1: string
    const player2: string
    const initialStake: real
    /** The global store the session reports every finished run to. */
    const store: BetStore.Store
    var sequence: seq<Outcome>
    var currentWinnings: real
    var totalPoints: int
    var draggedIndex: Option<nat>
    var sequenceAttempts: int
    var successfulRuns: int
    var failedRuns: int
    var gameTimeRemaining: int

    ghost predicate Valid()
      reads this, store
    {
      && store.Valid()
      && totalPoints >= 0
      && sequenceAttempts == successfulRuns + failedRuns
      && successfulRuns >= 0 && failedRuns >= 0
      && 0 <= gameTimeRemaining <= GameDuration
      && (draggedIndex.Some? ==> draggedIndex.value < |sequence|)
    }

    constructor (player1: string, player2: string, initialSequence: seq<Outcome>,
                 initialStake: real, store: BetStore.Store)
      requires store.Valid()
      ensures this.player1 == player1 && this.player2 == player2
      ensures this.initialStake == initialStake && this.store == store
      ensures sequence == initialSequence && currentWinnings == 0.0 && totalPoints == 0
      ensures draggedIndex.None? && sequenceAttempts == 0 && successfulRuns == 0 && failedRuns == 0
      ensures gameTimeRemaining == GameDuration
      ensures Valid()
    {
      this.player1 := player1;
      this.player2 := player2;
      this.initialStake := initialStake;
      this.store := store;
      sequence := initialSequence;
      currentWinnings := 0.0;
      totalPoints := 0;
      draggedIndex := None;
      sequenceAttempts := 0;
      successfulRuns := 0;
      failedRuns := 0;
      gameTimeRemaining := GameDuration;
    }

    /** `processNextOutcome`: the first pending outcome goes to checking, and is
        returned, since its check is what gets scheduled; with nothing pending
        nothing changes. */
    method ProcessNextOutcome() returns (next: Option<Outcome>)
      requires Valid()
      modifies this
      ensures Valid()
      ensures next.None? <==> FirstPending(old(sequence)).None?
      ensures next.None? ==> sequence == old(sequence)
      ensures next.Some? ==> next.value == old(sequence)[FirstPending(old(sequence)).value]
      ensures next.Some? ==> sequence == MarkChecking(old(sequence), next.value.id)
      ensures next.Some? && DistinctIds(old(sequence)) ==>
        var i := FirstPending(old(sequence)).value;
        sequence == old(sequence)[i := old(sequence)[i].(status := Checking)]
      ensures currentWinnings == old(currentWinnings) && totalPoints == old(totalPoints)
      ensures draggedIndex == old(draggedIndex) && gameTimeRemaining == old(gameTimeRemaining)
      ensures sequenceAttempts == old(sequenceAttempts) && successfulRuns == old(successfulRuns)
      ensures failedRuns == old(failedRuns)
    {
      match FirstPending(sequence)
      case None =>
        next := None;
      case Some(i) =>
        next := Some(sequence[i]);
        if DistinctIds(sequence) {
          MarkCheckingDistinct(sequence, i);
        }
        sequence := MarkChecking(sequence, sequence[i].id);
    }

    /** `resolveOutcome(outcome)` once the countdown of `outcome` is over, with
        `happened` the verdict. */
    method ResolveOutcome(outcome: Outcome, happened: bool) returns (next: Next)
      requires Valid()
      modifies this, store
      ensures Valid()
      ensures sequence == Resolve(old(sequence), outcome.id, happened)
      ensures totalPoints == if happened then old(totalPoints) + PointsPerHit else AfterMiss(old(totalPoints))
      ensures !happened ==>
        && next == RestartAfterMiss
        && sequenceAttempts == old(sequenceAttempts) + 1 && failedRuns == old(failedRuns) + 1
        && successfulRuns == old(successfulRuns) && currentWinnings == old(currentWinnings)
        && store.sequenceStats == BetStore.Record(old(store.sequenceStats), BetStore.Attempt(false, 0.0, initialStake))
      ensures happened && AllSucceeded(sequence) ==>
        && next == RestartAfterPass
        && currentWinnings == old(currentWinnings) + Payout.Profit(initialStake, sequence)
        && sequenceAttempts == old(sequenceAttempts) + 1 && successfulRuns == old(successfulRuns) + 1
        && failedRuns == old(failedRuns)
        && store.sequenceStats == BetStore.Record(old(store.sequenceStats),
             BetStore.Attempt(true, Payout.Profit(initialStake, sequence), initialStake))
      ensures happened && !AllSucceeded(sequence) ==>
        && next == ProcessNext
        && currentWinnings == old(currentWinnings)
        && sequenceAttempts == old(sequenceAttempts) && successfulRuns == old(successfulRuns)
        && failedRuns == old(failedRuns) && store.sequenceStats == old(store.sequenceStats)
      ensures store.placedBets == old(store.placedBets)
      ensures draggedIndex == old(draggedIndex) && gameTimeRemaining == old(gameTimeRemaining)
    {
      sequence := Resolve(sequence, outcome.id, happened);
      if happened {
        totalPoints := totalPoints + PointsPerHit;
      } else {
        totalPoints := AfterMiss(totalPoints);
        sequenceAttempts := sequenceAttempts + 1;
        failedRuns := failedRuns + 1;
        store.RecordSequenceAttempt(false, 0.0, initialStake);
        return RestartAfterMiss;
      }
      if AllSucceeded(sequence) {
        var profit := Payout.Profit(initialStake, sequence);
        currentWinnings := currentWinnings + profit;
        sequenceAttempts := sequenceAttempts + 1;
        successfulRuns := successfulRuns + 1;
        store.RecordSequenceAttempt(true, profit, initialStake);
        next := RestartAfterPass;
      } else {
        next := ProcessNext;
      }
    }

    /** The delayed restart after a miss or a full pass: everything back to pending. */
    method Restart()
      requires Valid()
      modifies this
      ensures Valid()
      ensures sequence == ResetAll(old(sequence))
      ensures currentWinnings == old(currentWinnings) && totalPoints == old(totalPoints)
      ensures draggedIndex == old(draggedIndex) && gameTimeRemaining == old(gameTimeRemaining)
      ensures sequenceAttempts == old(sequenceAttempts) && successfulRuns == old(successfulRuns)
      ensures failedRuns == old(failedRuns)
    {
      sequence := ResetAll(sequence);
    }

    /** One second of the session clock; it stops at 0. */
    method Tick()
      requires Valid()
      modifies this
      ensures Valid()
      ensures gameTimeRemaining == if old(gameTimeRemaining) <= 1 then 0 else old(gameTimeRemaining) - 1
      ensures sequence == old(sequence) && currentWinnings == old(currentWinnings)
      ensures totalPoints == old(totalPoints) && draggedIndex == old(draggedIndex)
      ensures sequenceAttempts == old(sequenceAttempts) && successfulRuns == old(successfulRuns)
      ensures failedRuns == old(failedRuns)
    {
      if gameTimeRemaining <= 1 {
        gameTimeRemaining := 0;
      } else {
        gameTimeRemaining := gameTimeRemaining - 1;
      }
    }

    /** What the game-end effect hands over once the clock reads 0: the
        history, the profit won and the points; before that, nothing. */
    function CompletionReport(): (r: Option<(seq<BetResult>, real, int)>)
      reads this
      ensures r.Some? <==> gameTimeRemaining == 0
      ensures r.Some? ==> r.value.0 == History(sequence)
      ensures r.Some? ==> r.value.1 == currentWinnings && r.value.2 == totalPoints
    {
      if gameTimeRemaining == 0 then Some((History(sequence), currentWinnings, totalPoints)) else None
    }

    /** `handleDragStart(index)`: only a pending outcome can be picked up. */
    method DragStart(index: nat)
      requires Valid() && index < |sequence|
      modifies this
      ensures Valid()
      ensures draggedIndex == if IsPending(old(sequence)[index]) then Some(index) else old(draggedIndex)
      ensures sequence == old(sequence) && currentWinnings == old(currentWinnings)
      ensures totalPoints == old(totalPoints) && gameTimeRemaining == old(gameTimeRemaining)
      ensures sequenceAttempts == old(sequenceAttempts) && successfulRuns == old(successfulRuns)
      ensures failedRuns == old(failedRuns)
    {
      if !IsPending(sequence[index]) {
        return;
      }
      draggedIndex := Some(index);
    }

    /** `handleDragOver(index)`: a pending outcome dragged over another pending
        outcome moves to its place. */
    method DragOver(index: nat)
      requires Valid() && index < |sequence|
      modifies this
      ensures Valid()
      ensures var d := old(draggedIndex);
        if d.Some? && d.value != index && IsPending(old(sequence)[d.value]) && IsPending(old(sequence)[index]) then
          sequence == Move(old(sequence), d.value, index) && draggedIndex == Some(index)
        else
          sequence == old(sequence) && draggedIndex == old(draggedIndex)
      ensures currentWinnings == old(currentWinnings) && totalPoints == old(totalPoints)
      ensures gameTimeRemaining == old(gameTimeRemaining)
      ensures sequenceAttempts == old(sequenceAttempts) && successfulRuns == old(successfulRuns)
      ensures failedRuns == old(failedRuns)
    {
      if draggedIndex.None? || draggedIndex.value == index {
        return;
      }
      var from := draggedIndex.value;
      if !IsPending(sequence[from]) || !IsPending(sequence[index]) {
        return;
      }
      sequence := Move(sequence, from, index);
      draggedIndex := Some(index);
    }

    /** `handleDragEnd`. */
    method DragEnd()
      requires Valid()
      modifies this
      ensures Valid()
      ensures draggedIndex.None?
      ensures sequence == old(sequence) && currentWinnings == old(currentWinnings)
      ensures totalPoints == old(totalPoints) && gameTimeRemaining == old(gameTimeRemaining)
      ensures sequenceAttempts == old(sequenceAttempts) && successfulRuns == old(successfulRuns)
      ensures failedRuns == old(failedRuns)
    {
      draggedIndex := None;
    }

    /** `addOutcome(template, player)` with `now` the clock reading used in the id. */
    method AddOutcome(template: Template, player: Option<string>, now: int)
      requires Valid()
      modifies this
      ensures Valid()
      ensures sequence == old(sequence) + [LiveOutcome(template, player1, player2, player, now)]
      ensures currentWinnings == old(currentWinnings) && totalPoints == old(totalPoints)
      ensures draggedIndex == old(draggedIndex) && gameTimeRemaining == old(gameTimeRemaining)
      ensures sequenceAttempts == old(sequenceAttempts) && successfulRuns == old(successfulRuns)
      ensures failedRuns == old(failedRuns)
    {
      sequence := sequence + [LiveOutcome(template, player1, player2, player, now)];
    }

    /** The streak shown on screen: the hits since the last miss within the
        settled prefix (the loop stops at the first pending or checking outcome). */
    method CurrentStreak() returns (streak: nat)
      ensures var p := SettledPrefix(sequence);
        && streak <= p
        && (forall j :: p - streak <= j < p ==> sequence[j].status == Success)
        && (streak < p ==> sequence[p - streak - 1].status == Failed)
    {
      streak := 0;
      var i := 0;
      while i < |sequence|
        invariant 0 <= i <= |sequence|
        invariant forall j :: 0 <= j < i ==> IsResolved(sequence[j])
        invariant streak <= i
        invariant forall j :: i - streak <= j < i ==> sequence[j].status == Success
        invariant streak < i ==> sequence[i - streak - 1].status == Failed
      {
        if sequence[i].status == Success {
          streak := streak + 1;
        } else if sequence[i].status == Failed {
          streak := 0;
        } else {
          break;
        }
        i := i + 1;
      }
      assert i == SettledPrefix(sequence);
    }
  }
}
