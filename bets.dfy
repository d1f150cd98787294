/** A placed bet and the list operations that both the bet store and the bet
    context apply to their list of placed bets: append, merge a partial
    update into every bet with a given id, and drop every bet with a given id. */
module Bets {
  import opened Wrappers
  import opened Outcomes

  /** `'pending' | 'live' | 'completed'`. `Waiting` stands for `'pending'`:
      the name `Pending` is taken by the outcome status of the opened
      `Outcomes` module. */
  datatype BetStatus = Waiting | Live | Completed

  datatype PlacedBet = PlacedBet(
    id: string,
    matchId: int,
    matchName: string,
    sequence: seq<Outcome>,
    timestamp: int,
    status: BetStatus,
    finalWinnings: Option<real>,
    betHistory: Option<seq<BetResult>>,
    initialStake: real)

  /** `Partial<PlacedBet>`: `Some` for every key the update object carries.
      For the optional fields the carried value may itself be absent. */
  datatype BetUpdate = BetUpdate(
    id: Option<string>,
    matchId: Option<int>,
    matchName: Option<string>,
    sequence: Option<seq<Outcome>>,
    timestamp: Option<int>,
    status: Option<BetStatus>,
    finalWinnings: Option<Option<real>>,
    betHistory: Option<Option<seq<BetResult>>>,
    initialStake: Option<real>)

  const NoChange := BetUpdate(None, None, None, None, None, None, None, None, None)

  /** `{ ...bet, ...updates }`. */
  function Merge(bet: PlacedBet, u: BetUpdate): PlacedBet {
    PlacedBet(
      u.id.GetOr(bet.id),
      u.matchId.GetOr(bet.matchId),
      u.matchName.GetOr(bet.matchName),
      u.sequence.GetOr(bet.sequence),
      u.timestamp.GetOr(bet.timestamp),
      u.status.GetOr(bet.status),
      u.finalWinnings.GetOr(bet.finalWinnings),
      u.betHistory.GetOr(bet.betHistory),
      u.initialStake.GetOr(bet.initialStake))
  }

  /** Merging an update that carries no key changes nothing. */
  lemma MergeNoChange(bet: PlacedBet)
    ensures Merge(bet, NoChange) == bet
  {
  }

  /** Merging the same update twice is merging it once. */
  lemma MergeIdempotent(bet: PlacedBet, u: BetUpdate)
    ensures Merge(Merge(bet, u), u) == Merge(bet, u)
  {
  }

  /** `bets.map(bet => bet.id === id ? { ...bet, ...u } : bet)`. */
  function UpdateById(bets: seq<PlacedBet>, id: string, u: BetUpdate): (r: seq<PlacedBet>)
    ensures |r| == |bets|
    ensures forall i :: 0 <= i < |bets| && bets[i].id == id ==> r[i] == Merge(bets[i], u)
    ensures forall i :: 0 <= i < |bets| && bets[i].id != id ==> r[i] == bets[i]
    decreases |bets|
  {
    if |bets| == 0 then []
    else [if bets[0].id == id then Merge(bets[0], u) else bets[0]] + UpdateById(bets[1..], id, u)
  }

  /** `bets.filter(bet => bet.id !== id)`. */
  function RemoveById(bets: seq<PlacedBet>, id: string): (r: seq<PlacedBet>)
    ensures |r| <= |bets|
    ensures forall b :: b in r <==> b in bets && b.id != id
    decreases |bets|
  {
    if |bets| == 0 then []
    else if bets[0].id == id then RemoveById(bets[1..], id)
    else [bets[0]] + RemoveById(bets[1..], id)
  }

  /** How many bets carry the id. */
  function CountId(bets: seq<PlacedBet>, id: string): nat
    decreases |bets|
  {
    if |bets| == 0 then 0 else (if bets[0].id == id then 1 else 0) + CountId(bets[1..], id)
  }

  /** Removing works piece by piece, so the kept bets stay in their order. */
  lemma {:induction false} RemoveByIdAppend(s: seq<PlacedBet>, t: seq<PlacedBet>, id: string)
    ensures RemoveById(s + t, id) == RemoveById(s, id) + RemoveById(t, id)
    decreases |s|
  {
    if s == [] {
      assert s + t == t;
    } else {
      assert (s + t)[1..] == s[1..] + t;
      RemoveByIdAppend(s[1..], t, id);
    }
  }

  /** Exactly the bets with the id are dropped. */
  lemma {:induction false} RemoveByIdCount(bets: seq<PlacedBet>, id: string)
    ensures |RemoveById(bets, id)| == |bets| - CountId(bets, id)
    decreases |bets|
  {
    if bets != [] {
      RemoveByIdCount(bets[1..], id);
    }
  }

  /** Removing an id no bet carries leaves the list as it is. */
  lemma {:induction false} RemoveAbsentId(bets: seq<PlacedBet>, id: string)
    requires forall i :: 0 <= i < |bets| ==> bets[i].id != id
    ensures RemoveById(bets, id) == bets
    decreases |bets|
  {
    if bets != [] {
      RemoveAbsentId(bets[1..], id);
      assert [bets[0]] + bets[1..] == bets;
    }
  }

  /** Updating an id no bet carries leaves the list as it is. */
  lemma UpdateAbsentId(bets: seq<PlacedBet>, id: string, u: BetUpdate)
    requires forall i :: 0 <= i < |bets| ==> bets[i].id != id
    ensures UpdateById(bets, id, u) == bets
  {
  }
}
