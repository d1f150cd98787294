/** The all-or-nothing penalty shootout over the fourteen kicks of the
    Euro 2004 quarter-final. The user predicts each kick in turn; the result
    is the historical one, never random. One wrong prediction loses the whole
    stake at once; fourteen right ones pay 25 times the stake. The timers of
    the component are the explicit methods `TickDecision`,
    `SimulatePenaltyResult` (the watching effect) and `Advance` (the delayed
    move to the next kick). */
module PenaltyShootout {
  import opened Wrappers

  datatype Team = Portugal | England

  datatype KickStatus = Waiting | Active | Completed

  datatype Penalty = Penalty(
    id: int,
    team: Team,
    player: string,
    status: KickStatus,
    result: Option<bool>,
    historicalResult: bool,
    userPrediction: Option<bool>,
    correct: Option<bool>)

  datatype Phase = Setup | Deciding | Watching | Finished

  /** Seconds the user has for each prediction. */
  const DecisionTime: nat := 10
  /** What fourteen right predictions pay: 25 times the stake. */
  function Prize(stake: real): real {
    stake * 25.0
  }

  function Kick(id: int, team: Team, player: string, scored: bool): Penalty {
    Penalty(id, team, player, Waiting, None, scored, None, None)
  }

  /** Kick `i` (from 0) of `PENALTY_SHOOTOUT`: who kicked and whether it went in.
      England kicked first and the teams alternate. Two names are kept as the
      literals spell them, with "ã" and "é" stored as the two characters
      U+221A U+00A3 and U+221A U+00A9 that their UTF-8 bytes read as in
      Mac Roman. */
  function ScriptKick(i: nat): (p: Penalty)
    requires i < 14
    ensures p.id == i + 1
    ensures p.team == (if i % 2 == 0 then England else Portugal)
    ensures p.status == Waiting && p.result.None? && p.userPrediction.None? && p.correct.None?
  {
    if i == 0 then Kick(1, England, "David Beckham", false)
    else if i == 1 then Kick(2, Portugal, "Deco", true)
    else if i == 2 then Kick(3, England, "Michael Owen", true)
    else if i == 3 then Kick(4, Portugal, "Sim\U{221A}\U{00A3}o Sabrosa", true)
    else if i == 4 then Kick(5, England, "Frank Lampard", true)
    else if i == 5 then Kick(6, Portugal, "Rui Costa", false)
    else if i == 6 then Kick(7, England, "John Terry", true)
    else if i == 7 then Kick(8, Portugal, "Cristiano Ronaldo", true)
    else if i == 8 then Kick(9, England, "Owen Hargreaves", true)
    else if i == 9 then Kick(10, Portugal, "Maniche", true)
    else if i == 10 then Kick(11, England, "Ashley Cole", true)
    else if i == 11 then Kick(12, Portugal, "H\U{221A}\U{00A9}lder Postiga", true)
    else if i == 12 then Kick(13, England, "Darius Vassell", false)
    else Kick(14, Portugal, "Ricardo", true)
  }

  /** `PENALTY_SHOOTOUT`, the fourteen kicks in order. */
  const Script: seq<Penalty> := seq(14, i requires 0 <= i < 14 => ScriptKick(i))

  /** The scripted parts of a kick agree: only status, result, prediction and verdict may differ. */
  predicate SameKick(p: Penalty, q: Penalty) {
    p.id == q.id && p.team == q.team && p.player == q.player && p.historicalResult == q.historicalResult
  }

  /** A kick that was predicted and whose historical result has been revealed. */
  predicate Revealed(p: Penalty) {
    && p.status == Completed
    && p.userPrediction.Some?
    && p.result == Some(p.historicalResult)
    && p.correct == Some(p.userPrediction.value == p.historicalResult)
  }

  /** The kick once its result is shown: the historical result, judged against the prediction. */
  function Reveal(p: Penalty): (r: Penalty)
    requires p.userPrediction.Some?
    ensures Revealed(r) && SameKick(r, p)
    ensures Won(r) <==> p.userPrediction == Some(p.historicalResult)
  {
    p.(result := Some(p.historicalResult),
       correct := Some(p.userPrediction == Some(p.historicalResult)),
       status := Completed)
  }

  /** A revealed kick the user predicted right. */
  predicate Won(p: Penalty) {
    Revealed(p) && p.correct == Some(true)
  }

  predicate AllWon(ps: seq<Penalty>) {
    forall j :: 0 <= j < |ps| ==> Won(ps[j])
  }

  /** Whether this kick counts as a goal for `team` on the scoreboard. */
  function GoalFor(p: Penalty, team: Team): nat {
    if p.status == Completed && p.result == Some(true) && p.team == team then 1 else 0
  }

  function Goals(ps: seq<Penalty>, team: Team): nat
    decreases |ps|
  {
    if |ps| == 0 then 0 else GoalFor(ps[0], team) + Goals(ps[1..], team)
  }

  /** Replacing one kick changes the score by the difference of that kick alone. */
  lemma {:induction false} GoalsUpdate(ps: seq<Penalty>, i: nat, q: Penalty, team: Team)
    requires i < |ps|
    ensures Goals(ps[i := q], team) == Goals(ps, team) - GoalFor(ps[i], team) + GoalFor(q, team)
    decreases |ps|
  {
    if i > 0 {
      assert ps[i := q][1..] == ps[1..][i - 1 := q];
      GoalsUpdate(ps[1..], i - 1, q, team);
    }
  }

  /** The number of kicks whose verdict is "correct" (`penalties.filter(p => p.correct).length`). */
  function CorrectCount(ps: seq<Penalty>): nat
    decreases |ps|
  {
    if |ps| == 0 then 0 else (if ps[0].correct == Some(true) then 1 else 0) + CorrectCount(ps[1..])
  }

  lemma {:induction false} AllWonCorrectCount(ps: seq<Penalty>)
    requires AllWon(ps)
    ensures CorrectCount(ps) == |ps|
    decreases |ps|
  {
    if ps != [] {
      AllWonCorrectCount(ps[1..]);
    }
  }

  /** Kicks judged correct up to position `i` and none from there on count `i` correct. */
  lemma {:induction false} CorrectCountPrefix(ps: seq<Penalty>, i: nat)
    requires i <= |ps|
    requires forall j :: 0 <= j < i ==> ps[j].correct == Some(true)
    requires forall j :: i <= j < |ps| ==> ps[j].correct != Some(true)
    ensures CorrectCount(ps) == i
    decreases |ps|
  {
    if ps != [] {
      CorrectCountPrefix(ps[1..], if i == 0 then 0 else i - 1);
    }
  }

  /** When every kick has been revealed, the scoreboard is the historical one. */
  lemma {:induction false} RevealedGoals(ps: seq<Penalty>, script: seq<Penalty>, k: nat, team: Team)
    requires |ps| == |script| && k <= |ps|
    requires forall j :: 0 <= j < |ps| ==> Revealed(ps[j]) && SameKick(ps[j], script[j])
    ensures Goals(ps[k..], team) == HistoricalGoals(script, k, team)
    decreases |ps| - k
  {
    if k < |ps| {
      assert ps[k..][1..] == ps[k + 1..];
      RevealedGoals(ps, script, k + 1, team);
    }
  }

  /** A kick that has been neither played nor judged. */
  predicate Unplayed(p: Penalty) {
    p.status == Waiting && p.correct.None?
  }

  /** No kick of `s` has been played or judged yet. */
  predicate AllWaiting(s: seq<Penalty>)
    decreases |s|
  {
    |s| == 0 || (Unplayed(s[0]) && AllWaiting(s[1..]))
  }

  lemma {:induction false} AllWaitingAt(s: seq<Penalty>, j: nat)
    requires AllWaiting(s) && j < |s|
    ensures Unplayed(s[j])
    decreases |s|
  {
    if j > 0 {
      AllWaitingAt(s[1..], j - 1);
    }
  }

  lemma {:induction false} WaitingAll(s: seq<Penalty>)
    requires forall j :: 0 <= j < |s| ==> Unplayed(s[j])
    ensures AllWaiting(s)
    decreases |s|
  {
    if |s| > 0 {
      WaitingAll(s[1..]);
    }
  }

  /** Kick `k` as it stands while kick `i` is the current one: the scripted
      kick, won if it came earlier, untouched if it comes later. */
  predicate KickOk(script: seq<Penalty>, ps: seq<Penalty>, i: nat, k: nat)
    requires k < |ps| == |script|
  {
    && SameKick(ps[k], script[k])
    && (k < i ==> Won(ps[k]))
    && (i < k ==> ps[k] == script[k])
  }

  /** Every kick from position `k` on stands as `KickOk` says. */
  predicate KicksFrom(script: seq<Penalty>, ps: seq<Penalty>, i: nat, k: nat)
    requires |ps| == |script| && k <= |ps|
    decreases |ps| - k
  {
    k == |ps| || (KickOk(script, ps, i, k) && KicksFrom(script, ps, i, k + 1))
  }

  /** The kicks while kick `i` is the current one: the fourteen scripted kicks,
      every earlier one won, every later one untouched. */
  predicate KicksOk(script: seq<Penalty>, ps: seq<Penalty>, i: nat) {
    && |script| == 14
    && AllWaiting(script)
    && |ps| == |script|
    && i < |ps|
    && KicksFrom(script, ps, i, 0)
  }

  lemma {:induction false} KicksFromAt(script: seq<Penalty>, ps: seq<Penalty>, i: nat, k: nat, j: nat)
    requires |ps| == |script| && k <= j < |ps| && KicksFrom(script, ps, i, k)
    ensures KickOk(script, ps, i, j)
    decreases j - k
  {
    if k < j {
      KicksFromAt(script, ps, i, k + 1, j);
    }
  }

  lemma {:induction false} KicksFromAll(script: seq<Penalty>, ps: seq<Penalty>, i: nat, k: nat)
    requires |ps| == |script| && k <= |ps|
    requires forall j :: k <= j < |ps| ==> KickOk(script, ps, i, j)
    ensures KicksFrom(script, ps, i, k)
    decreases |ps| - k
  {
    if k < |ps| {
      KicksFromAll(script, ps, i, k + 1);
    }
  }

  /** The kicks of a game, one position at a time. */
  lemma KicksAt(script: seq<Penalty>, ps: seq<Penalty>, i: nat)
    requires KicksOk(script, ps, i)
    ensures forall j :: 0 <= j < |ps| ==> KickOk(script, ps, i, j)
    ensures forall j :: 0 <= j < |ps| ==> SameKick(ps[j], script[j])
    ensures forall j :: 0 <= j < i ==> Won(ps[j])
    ensures forall j :: i < j < |ps| ==> ps[j] == script[j]
  {
    forall j | 0 <= j < |ps|
      ensures KickOk(script, ps, i, j)
      ensures SameKick(ps[j], script[j]) && (j < i ==> Won(ps[j])) && (i < j ==> ps[j] == script[j])
    {
      KicksFromAt(script, ps, i, 0, j);
    }
  }

  /** Changing what is recorded about the current kick keeps the kicks valid. */
  lemma UpdateCurrentKick(script: seq<Penalty>, ps: seq<Penalty>, i: nat, q: Penalty)
    requires KicksOk(script, ps, i) && SameKick(q, script[i])
    ensures KicksOk(script, ps[i := q], i)
  {
    KicksAt(script, ps, i);
    var updated := ps[i := q];
    forall j | 0 <= j < |updated|
      ensures KickOk(script, updated, i, j)
    {
      assert KickOk(script, ps, i, j);
    }
    KicksFromAll(script, updated, i, 0);
  }

  /** Moving past a won kick keeps the kicks valid; the next kick is still as scripted. */
  lemma NextKick(script: seq<Penalty>, ps: seq<Penalty>, i: nat)
    requires KicksOk(script, ps, i) && Won(ps[i]) && i + 1 < |ps|
    ensures KicksOk(script, ps, i + 1)
    ensures ps[i + 1] == script[i + 1] && Unplayed(ps[i + 1])
  {
    KicksAt(script, ps, i);
    var next := i + 1;
    forall j | 0 <= j < |ps|
      ensures KickOk(script, ps, next, j)
    {
      assert KickOk(script, ps, i, j);
    }
    KicksFromAll(script, ps, next, 0);
    AllWaitingAt(script, next);
  }

  /** A game stopped by a wrong prediction at kick `i` counts the `i` kicks before it correct:
      the earlier kicks were won and the later ones were never judged. */
  lemma LostCorrectCount(script: seq<Penalty>, ps: seq<Penalty>, i: nat)
    requires KicksOk(script, ps, i) && ps[i].correct == Some(false)
    ensures CorrectCount(ps) == i
  {
    KicksAt(script, ps, i);
    forall j | i < j < |ps|
      ensures ps[j].correct.None?
    {
      AllWaitingAt(script, j);
    }
    CorrectCountPrefix(ps, i);
  }

  /** Goals scored by `team` in the kicks from position `k` on, as they really went. */
  function HistoricalGoals(script: seq<Penalty>, k: nat, team: Team): nat
    requires k <= |script|
    decreases |script| - k
  {
    if k == |script| then 0
    else (if script[k].team == team && script[k].historicalResult then 1 else 0) + HistoricalGoals(script, k + 1, team)
  }

  /** The script ends 6-5 to Portugal: Portugal's six goals. */
  lemma HistoricalPortugalGoals()
    ensures HistoricalGoals(Script, 0, Portugal) == 6
  {
    var s := Script;
    assert |s| == 14;
    assert HistoricalGoals(s, 13, Portugal) == 1;
    assert HistoricalGoals(s, 12, Portugal) == 1;
    assert HistoricalGoals(s, 11, Portugal) == 2;
    assert HistoricalGoals(s, 10, Portugal) == 2;
    assert HistoricalGoals(s, 9, Portugal) == 3;
    assert HistoricalGoals(s, 8, Portugal) == 3;
    assert HistoricalGoals(s, 7, Portugal) == 4;
    assert HistoricalGoals(s, 6, Portugal) == 4;
    assert HistoricalGoals(s, 5, Portugal) == 4;
    assert HistoricalGoals(s, 4, Portugal) == 4;
    assert HistoricalGoals(s, 3, Portugal) == 5;
    assert HistoricalGoals(s, 2, Portugal) == 5;
    assert HistoricalGoals(s, 1, Portugal) == 6;
  }

  /** ... and England's five. */
  lemma HistoricalEnglandGoals()
    ensures HistoricalGoals(Script, 0, England) == 5
  {
    var s := Script;
    assert |s| == 14;
    assert HistoricalGoals(s, 13, England) == 0;
    assert HistoricalGoals(s, 12, England) == 0;
    assert HistoricalGoals(s, 11, England) == 0;
    assert HistoricalGoals(s, 10, England) == 1;
    assert HistoricalGoals(s, 9, England) == 1;
    assert HistoricalGoals(s, 8, England) == 2;
    assert HistoricalGoals(s, 7, England) == 2;
    assert HistoricalGoals(s, 6, England) == 3;
    assert HistoricalGoals(s, 5, England) == 3;
    assert HistoricalGoals(s, 4, England) == 4;
    assert HistoricalGoals(s, 3, England) == 4;
    assert HistoricalGoals(s, 2, England) == 5;
    assert HistoricalGoals(s, 1, England) == 5;
  }

  /** What the game relies on about the script: fourteen kicks, none played yet. */
  lemma ScriptFacts()
    ensures |Script| == 14
    ensures forall j :: 0 <= j < |Script| ==> Unplayed(Script[j])
    ensures Goals(Script, Portugal) == 0 && Goals(Script, England) == 0
    ensures KicksOk(Script, Script, 0)
  {
    NoGoalsBeforeKicks(Script);
    WaitingAll(Script);
    KicksFromAll(Script, Script, 0, 0);
  }

  /** The flags and the money once the current kick `p` of a game has been shown. */
  ghost predicate ShownOk(p: Penalty, last: bool, decided: bool, shown: bool,
                          stake: real, balance: real, winnings: real, lost: bool)
  {
    && decided && shown && Revealed(p)
    && lost == (p.correct == Some(false))
    && balance == (if lost then 0.0 else if last then Prize(stake) else stake)
    && winnings == (if lost then 0.0 else Prize(stake))
  }

  /** The current kick, the flags and the money of a game, phase by phase. */
  ghost predicate PhaseOk(script: seq<Penalty>, ps: seq<Penalty>, i: nat, time: nat, decided: bool, shown: bool,
                          stake: real, balance: real, winnings: real, phase: Phase, lost: bool)
    requires i < |ps| == |script|
  {
    var p := ps[i];
    && time <= DecisionTime
    && match phase
       case Setup =>
         && i == 0 && p == script[0] && time == DecisionTime
         && !decided && !shown && !lost
         && stake == 0.0 && balance == 0.0 && winnings == 0.0
       case Deciding =>
         && stake > 0.0 && p == script[i] && p.status == Waiting && !decided && !shown && !lost
         && balance == stake && winnings == Prize(stake)
       case Watching =>
         && stake > 0.0
         && if shown then ShownOk(p, i == |ps| - 1, decided, shown, stake, balance, winnings, lost)
            else
              && decided && !lost && p.userPrediction.Some?
              && p == script[i].(status := Active, userPrediction := p.userPrediction)
              && balance == stake && winnings == Prize(stake)
       case Finished =>
         && stake > 0.0
         && ShownOk(p, i == |ps| - 1, decided, shown, stake, balance, winnings, lost)
         && (lost || i == |ps| - 1)
  }

  /** Revealing the current kick of a game that is watching it takes the game to the shown state,
      with the stake lost on a wrong prediction and paid out after a right last one. */
  lemma RevealStep(script: seq<Penalty>, ps: seq<Penalty>, i: nat, time: nat, decided: bool, shown: bool,
                   stake: real, balance: real, winnings: real, phase: Phase, lost: bool)
    requires i < |ps| == |script|
    requires PhaseOk(script, ps, i, time, decided, shown, stake, balance, winnings, phase, lost)
    requires phase == Watching && !shown
    ensures ps[i].userPrediction.Some?
    ensures
      var won := ps[i].userPrediction == Some(ps[i].historicalResult);
      PhaseOk(script, ps[i := Reveal(ps[i])], i, time, decided, true, stake,
              if !won then 0.0 else if i == |ps| - 1 then Prize(stake) else balance,
              if !won then 0.0 else winnings,
              phase, !won)
  {
  }

  class Shootout {
    /** The kicks as they stand before the game: `PENALTY_SHOOTOUT`. */
    const script: seq<Penalty>
    var penalties: seq<Penalty>
    var currentPenaltyIndex: nat
    var timeRemaining: nat
    var hasDecided: bool
    var showResult: bool
    var initialStake: real
    var currentBalance: real
    var potentialWinnings: real
    var portugalScore: nat
    var englandScore: nat
    var phase: Phase
    var hasLost: bool

    predicate IsLastPenalty()
      reads this
    {
      currentPenaltyIndex == |penalties| - 1
    }

    ghost predicate KicksValid()
      reads this
    {
      KicksOk(script, penalties, currentPenaltyIndex)
    }

    ghost predicate PhaseValid()
      reads this
      requires KicksValid()
    {
      PhaseOk(script, penalties, currentPenaltyIndex, timeRemaining, hasDecided, showResult,
              initialStake, currentBalance, potentialWinnings, phase, hasLost)
    }

    ghost predicate Valid()
      reads this
    {
      && KicksValid()
      && PhaseValid()
      && portugalScore == Goals(penalties, Portugal)
      && englandScore == Goals(penalties, England)
    }

    constructor ()
      ensures script == Script && penalties == script && currentPenaltyIndex == 0 && timeRemaining == DecisionTime
      ensures !hasDecided && !showResult && !hasLost && phase == Setup
      ensures initialStake == 0.0 && currentBalance == 0.0 && potentialWinnings == 0.0
      ensures portugalScore == 0 && englandScore == 0
      ensures Valid()
    {
      script := Script;
      penalties := Script;
      currentPenaltyIndex := 0;
      timeRemaining := DecisionTime;
      hasDecided := false;
      showResult := false;
      initialStake := 0.0;
      currentBalance := 0.0;
      potentialWinnings := 0.0;
      portugalScore := 0;
      englandScore := 0;
      phase := Setup;
      hasLost := false;
      ScriptFacts();
    }

    /** `handleStartGame` with the parsed bet amount (`None` for a value that is not a number). */
    method StartGame(amount: Option<real>)
      requires Valid() && phase == Setup
      modifies this
      ensures Valid()
      ensures amount.Some? && amount.value > 0.0 ==>
        && initialStake == amount.value && currentBalance == amount.value
        && potentialWinnings == Prize(amount.value) && phase == Deciding
        && penalties == old(penalties) && currentPenaltyIndex == old(currentPenaltyIndex)
        && timeRemaining == old(timeRemaining) && hasDecided == old(hasDecided)
        && showResult == old(showResult) && hasLost == old(hasLost)
        && portugalScore == old(portugalScore) && englandScore == old(englandScore)
      ensures !(amount.Some? && amount.value > 0.0) ==> unchanged(this)
    {
      if amount.Some? && amount.value > 0.0 {
        initialStake := amount.value;
        currentBalance := amount.value;
        potentialWinnings := Prize(amount.value);
        phase := Deciding;
      }
    }

    /** `handlePrediction(willScore)`: accepted once per kick, it records the
        prediction, makes the kick active and moves to watching. */
    method Predict(willScore: bool)
      requires Valid() && phase != Setup
      modifies this
      ensures Valid()
      ensures old(hasDecided) ==> unchanged(this)
      ensures !old(hasDecided) ==>
        && hasDecided && phase == Watching
        && penalties == old(penalties)[currentPenaltyIndex :=
             old(penalties[currentPenaltyIndex]).(userPrediction := Some(willScore), status := Active)]
        && currentPenaltyIndex == old(currentPenaltyIndex) && timeRemaining == old(timeRemaining)
        && showResult == old(showResult) && hasLost == old(hasLost)
        && initialStake == old(initialStake) && currentBalance == old(currentBalance)
        && potentialWinnings == old(potentialWinnings)
        && portugalScore == old(portugalScore) && englandScore == old(englandScore)
    {
      if hasDecided {
        return;
      }
      hasDecided := true;
      var i := currentPenaltyIndex;
      var q := penalties[i].(userPrediction := Some(willScore), status := Active);
      GoalsUpdate(penalties, i, q, Portugal);
      GoalsUpdate(penalties, i, q, England);
      UpdateCurrentKick(script, penalties, i, q);
      penalties := penalties[i := q];
      phase := Watching;
    }

    /** One second of the decision timer: count down while deciding, and when
        the time is up without a decision, predict "will score". */
    method TickDecision()
      requires Valid()
      modifies this
      ensures Valid()
      ensures old(phase) == Deciding && !old(hasDecided) && old(timeRemaining) > 0 ==>
        && timeRemaining == old(timeRemaining) - 1
        && penalties == old(penalties) && phase == old(phase) && hasDecided == old(hasDecided)
        && currentPenaltyIndex == old(currentPenaltyIndex) && showResult == old(showResult)
        && hasLost == old(hasLost) && initialStake == old(initialStake)
        && currentBalance == old(currentBalance) && potentialWinnings == old(potentialWinnings)
        && portugalScore == old(portugalScore) && englandScore == old(englandScore)
      ensures old(phase) == Deciding && !old(hasDecided) && old(timeRemaining) == 0 ==>
        && hasDecided && phase == Watching
        && penalties == old(penalties)[currentPenaltyIndex :=
             old(penalties[currentPenaltyIndex]).(userPrediction := Some(true), status := Active)]
        && currentPenaltyIndex == old(currentPenaltyIndex) && timeRemaining == old(timeRemaining)
        && showResult == old(showResult) && hasLost == old(hasLost)
        && initialStake == old(initialStake) && currentBalance == old(currentBalance)
        && potentialWinnings == old(potentialWinnings)
        && portugalScore == old(portugalScore) && englandScore == old(englandScore)
      ensures !(old(phase) == Deciding && !old(hasDecided)) ==> unchanged(this)
    {
      if phase == Deciding && !hasDecided && timeRemaining > 0 {
        timeRemaining := timeRemaining - 1;
      } else if phase == Deciding && timeRemaining == 0 && !hasDecided {
        Predict(true);
      }
    }

    /** The watching effect (`simulatePenaltyResult`): it runs only while a
        kick is being watched and its result is not yet shown. The kick is
        revealed and judged, the scoreboard counts it, and the money follows
        the verdict: all lost on a wrong prediction, 25 times the stake after a
        right prediction on the last kick, unchanged otherwise. */
    method SimulatePenaltyResult()
      requires Valid()
      modifies this
      ensures Valid()
      ensures !(old(phase) == Watching && !old(showResult)) ==> unchanged(this)
      ensures old(phase) == Watching && !old(showResult) ==>
        && showResult && phase == Watching && currentPenaltyIndex == old(currentPenaltyIndex)
        && initialStake == old(initialStake) && timeRemaining == old(timeRemaining)
        && penalties == old(penalties)[currentPenaltyIndex := Reveal(old(penalties[currentPenaltyIndex]))]
      ensures old(phase) == Watching && !old(showResult) ==>
        var p := old(penalties[currentPenaltyIndex]);
        && portugalScore == old(portugalScore) + (if p.historicalResult && p.team == Portugal then 1 else 0)
        && englandScore == old(englandScore) + (if p.historicalResult && p.team == England then 1 else 0)
      ensures old(phase) == Watching && !old(showResult) ==>
        var p := old(penalties[currentPenaltyIndex]);
        if p.userPrediction != Some(p.historicalResult) then
          hasLost && currentBalance == 0.0 && potentialWinnings == 0.0
        else if currentPenaltyIndex == |penalties| - 1 then
          !hasLost && currentBalance == Prize(initialStake) && potentialWinnings == Prize(initialStake)
        else
          !hasLost && currentBalance == old(currentBalance) && potentialWinnings == old(potentialWinnings)
    {
      if phase == Watching && !showResult {
        RevealCurrent();
      }
    }

    /** Reveal the current kick and settle the money; what the money becomes
        follows from `Valid()` in the shown state. */
    method RevealCurrent()
      requires Valid() && phase == Watching && !showResult
      modifies this
      ensures Valid()
      ensures showResult && phase == Watching && currentPenaltyIndex == old(currentPenaltyIndex)
      ensures initialStake == old(initialStake) && timeRemaining == old(timeRemaining)
      ensures penalties == old(penalties)[currentPenaltyIndex := Reveal(old(penalties[currentPenaltyIndex]))]
      ensures var p := old(penalties[currentPenaltyIndex]);
        && portugalScore == old(portugalScore) + (if p.historicalResult && p.team == Portugal then 1 else 0)
        && englandScore == old(englandScore) + (if p.historicalResult && p.team == England then 1 else 0)
    {
      var i := currentPenaltyIndex;
      var penalty := penalties[i];
      var correct := penalty.userPrediction == Some(penalty.historicalResult);
      var last := i == |penalties| - 1;
      var balance := if !correct then 0.0 else if last then Prize(initialStake) else currentBalance;
      var winnings := if !correct then 0.0 else potentialWinnings;
      RevealStep(script, penalties, i, timeRemaining, hasDecided, showResult,
                 initialStake, currentBalance, potentialWinnings, phase, hasLost);
      RevealKick();
      Settle(!correct, balance, winnings);
    }

    /** Show the result and record the money the verdict leaves. */
    method Settle(lost: bool, balance: real, winnings: real)
      requires KicksValid()
      requires portugalScore == Goals(penalties, Portugal) && englandScore == Goals(penalties, England)
      requires PhaseOk(script, penalties, currentPenaltyIndex, timeRemaining, hasDecided, true,
                       initialStake, balance, winnings, phase, lost)
      modifies this
      ensures Valid()
      ensures showResult && hasLost == lost && currentBalance == balance && potentialWinnings == winnings
      ensures penalties == old(penalties) && currentPenaltyIndex == old(currentPenaltyIndex)
      ensures timeRemaining == old(timeRemaining) && hasDecided == old(hasDecided) && phase == old(phase)
      ensures initialStake == old(initialStake)
      ensures portugalScore == old(portugalScore) && englandScore == old(englandScore)
    {
      hasLost, currentBalance, potentialWinnings, showResult := lost, balance, winnings, true;
    }

    /** The part of the reveal that touches the kicks and the scoreboard. */
    method RevealKick()
      requires Valid() && phase == Watching && !showResult
      modifies this
      ensures KicksValid()
      ensures portugalScore == Goals(penalties, Portugal) && englandScore == Goals(penalties, England)
      ensures penalties == old(penalties)[currentPenaltyIndex := Reveal(old(penalties[currentPenaltyIndex]))]
      ensures var p := old(penalties[currentPenaltyIndex]);
        && portugalScore == old(portugalScore) + (if p.historicalResult && p.team == Portugal then 1 else 0)
        && englandScore == old(englandScore) + (if p.historicalResult && p.team == England then 1 else 0)
      ensures currentPenaltyIndex == old(currentPenaltyIndex) && timeRemaining == old(timeRemaining)
      ensures hasDecided == old(hasDecided) && showResult == old(showResult) && phase == old(phase)
      ensures initialStake == old(initialStake) && currentBalance == old(currentBalance)
      ensures potentialWinnings == old(potentialWinnings) && hasLost == old(hasLost)
    {
      var i := currentPenaltyIndex;
      var penalty := penalties[i];
      var scored := penalty.historicalResult;
      var q := Reveal(penalty);
      GoalsUpdate(penalties, i, q, Portugal);
      GoalsUpdate(penalties, i, q, England);
      UpdateCurrentKick(script, penalties, i, q);
      penalties := penalties[i := q];
      portugalScore := portugalScore + (if scored && penalty.team == Portugal then 1 else 0);
      englandScore := englandScore + (if scored && penalty.team == England then 1 else 0);
    }

    /** The delayed step after a reveal: game over on a miss or after the last
        kick, otherwise on to the next kick with a fresh decision timer. */
    method Advance()
      requires Valid() && phase == Watching && showResult
      modifies this
      ensures Valid()
      ensures var correct := old(penalties[currentPenaltyIndex]).correct == Some(true);
        if !correct || old(IsLastPenalty()) then
          && phase == Finished
          && penalties == old(penalties) && currentPenaltyIndex == old(currentPenaltyIndex)
          && timeRemaining == old(timeRemaining) && hasDecided == old(hasDecided)
          && showResult == old(showResult) && hasLost == old(hasLost)
          && initialStake == old(initialStake) && currentBalance == old(currentBalance)
          && potentialWinnings == old(potentialWinnings)
          && portugalScore == old(portugalScore) && englandScore == old(englandScore)
        else
          && phase == Deciding && currentPenaltyIndex == old(currentPenaltyIndex) + 1
          && timeRemaining == DecisionTime && !hasDecided && !showResult
          && penalties == old(penalties) && hasLost == old(hasLost)
          && initialStake == old(initialStake) && currentBalance == old(currentBalance)
          && potentialWinnings == old(potentialWinnings)
          && portugalScore == old(portugalScore) && englandScore == old(englandScore)
    {
      var correct := penalties[currentPenaltyIndex].correct == Some(true);
      if !correct {
        phase := Finished;
      } else if currentPenaltyIndex == |penalties| - 1 {
        phase := Finished;
      } else {
        NextKick(script, penalties, currentPenaltyIndex);
        currentPenaltyIndex := currentPenaltyIndex + 1;
        timeRemaining := DecisionTime;
        hasDecided := false;
        showResult := false;
        phase := Deciding;
      }
    }

    /** What the finished effect reports: the balance, the number of correct
        predictions and the number of kicks. All or nothing: the balance is 25
        times the stake exactly when every kick was predicted right, else 0. */
    function FinalReport(): (r: (real, nat, nat))
      reads this
      requires Valid() && phase == Finished
      ensures r.2 == |script|
      ensures r.0 == (if AllWon(penalties) then Prize(initialStake) else 0.0)
      ensures r.0 == 0.0 <==> hasLost
      ensures AllWon(penalties) ==> r.1 == |script|
      ensures hasLost ==> r.1 == currentPenaltyIndex
      ensures AllWon(penalties) ==> portugalScore == HistoricalGoals(script, 0, Portugal)
      ensures AllWon(penalties) ==> englandScore == HistoricalGoals(script, 0, England)
    {
      KicksAt(script, penalties, currentPenaltyIndex);
      assert hasLost ==> !Won(penalties[currentPenaltyIndex]);
      assert !hasLost ==> AllWon(penalties);
      if AllWon(penalties) then
        PerfectRun(penalties, script);
        (currentBalance, CorrectCount(penalties), |penalties|)
      else
        LostCorrectCount(script, penalties, currentPenaltyIndex);
        (currentBalance, CorrectCount(penalties), |penalties|)
    }
  }

  /** A run with every kick predicted right counts every kick correct and shows the historical score. */
  lemma PerfectRun(ps: seq<Penalty>, script: seq<Penalty>)
    requires |ps| == |script|
    requires forall j :: 0 <= j < |ps| ==> SameKick(ps[j], script[j])
    requires AllWon(ps)
    ensures CorrectCount(ps) == |script|
    ensures Goals(ps, Portugal) == HistoricalGoals(script, 0, Portugal)
    ensures Goals(ps, England) == HistoricalGoals(script, 0, England)
  {
    AllWonCorrectCount(ps);
    RevealedGoals(ps, script, 0, Portugal);
    RevealedGoals(ps, script, 0, England);
    assert ps[0..] == ps;
  }

  /** Before any kick is revealed nobody has scored. */
  lemma {:induction false} NoGoalsBeforeKicks(ps: seq<Penalty>)
    requires forall j :: 0 <= j < |ps| ==> ps[j].status == Waiting
    ensures Goals(ps, Portugal) == 0 && Goals(ps, England) == 0
    decreases |ps|
  {
    if ps != [] {
      NoGoalsBeforeKicks(ps[1..]);
    }
  }
}
