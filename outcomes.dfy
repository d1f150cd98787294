/** The records shared by the sequence builder and the live engine:
    an outcome template from the catalog, one outcome of a user's sequence,
    and one line of the bet history handed over at the end of a session. */
module Outcomes {
  import opened Wrappers

  datatype Status = Pending | Checking | Success | Failed

  /** A catalog entry. The catalog itself is external to this model. */
  datatype Template = Template(
    id: string,
    category: string,
    description: string,
    odds: real,
    timeLimit: int,
    allowPlayerSelection: bool)

  /** One predicted outcome of a sequence (`SequenceOutcome`). */
  datatype Outcome = Outcome(
    id: string,
    category: string,
    description: string,
    odds: real,
    timeLimit: int,
    status: Status,
    result: Option<bool>)

  /** One entry of the history reported when the session clock runs out (`BetResult`). */
  datatype BetResult = BetResult(
    outcomeId: string,
    description: string,
    correct: bool,
    selectedOdds: real)

  predicate IsPending(o: Outcome) { o.status == Pending }

  predicate IsResolved(o: Outcome) { o.status == Success || o.status == Failed }

  /** No two outcomes of `s` share an id. */
  predicate DistinctIds(s: seq<Outcome>) {
    forall i, j :: 0 <= i < j < |s| ==> s[i].id != s[j].id
  }

  /** `s` with the element at `i` taken out (`splice(i, 1)`). */
  function Without(s: seq<Outcome>, i: nat): (r: seq<Outcome>)
    requires i < |s|
    ensures |r| == |s| - 1
    ensures forall k :: 0 <= k < i ==> r[k] == s[k]
    ensures forall k :: i <= k < |r| ==> r[k] == s[k + 1]
    ensures multiset(r) + multiset{s[i]} == multiset(s)
  {
    assert s == s[..i] + [s[i]] + s[i + 1..];
    s[..i] + s[i + 1..]
  }

  /** `s` with `x` put in at position `i` (`splice(i, 0, x)`). */
  function InsertAt(s: seq<Outcome>, i: nat, x: Outcome): (r: seq<Outcome>)
    requires i <= |s|
    ensures |r| == |s| + 1 && r[i] == x
    ensures forall k :: 0 <= k < i ==> r[k] == s[k]
    ensures forall k :: i < k < |r| ==> r[k] == s[k - 1]
    ensures multiset(r) == multiset(s) + multiset{x}
  {
    assert s == s[..i] + s[i..];
    s[..i] + [x] + s[i..]
  }

  /** The reorder of both screens (the live drag and `arrayMove`): the outcome
      at `from` is taken out and put back at `to`. */
  function Move(s: seq<Outcome>, from: nat, to: nat): (r: seq<Outcome>)
    requires from < |s| && to < |s|
    ensures |r| == |s| && r[to] == s[from]
    ensures multiset(r) == multiset(s)
    ensures forall k :: 0 <= k < |s| && k < from && k < to ==> r[k] == s[k]
    ensures forall k :: 0 <= k < |s| && k > from && k > to ==> r[k] == s[k]
    ensures forall k :: from < k <= to ==> r[k - 1] == s[k]
    ensures forall k :: to <= k < from ==> r[k + 1] == s[k]
  {
    InsertAt(Without(s, from), to, s[from])
  }
}
