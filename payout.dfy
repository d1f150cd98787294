/** Payout arithmetic of the build-and-watch game.

    The live engine pays `stake * (product of odds) * (1 + length bonus)` for
    every fully successful pass; the builder previews the same formula with
    each odd capped at `MaxEventOdd` and pays nothing below three outcomes.
    Both products are left folds in the source (`reduce` from 1); they are
    related here to a plain recursive product, which is what the lemmas
    reason about. Amounts are exact reals. */
module Payout {
  import Wrappers
  import opened Outcomes

  const MaxEventOdd: real := 5.0
  const MinSequenceLength: nat := 3
  const BonusPerExtraStep: real := 0.05

  /** The factor one outcome contributes to the live engine's final odd. */
  function Odds(o: Outcome): real { o.odds }

  /** `Math.min(odds, MAX_EVENT_ODD)`: the factor one outcome contributes to the preview. */
  function CappedOdds(o: Outcome): (r: real)
    ensures r <= MaxEventOdd && r <= o.odds
    ensures r == o.odds || r == MaxEventOdd
  {
    if o.odds <= MaxEventOdd then o.odds else MaxEventOdd
  }

  /** `s.reduce((acc, o) => acc * f(o), acc)`. */
  function Fold(acc: real, s: seq<Outcome>, f: Outcome -> real): real
    decreases |s|
  {
    if s == [] then acc else Fold(acc * f(s[0]), s[1..], f)
  }

  /** The product of `f` over `s`: the reference definition the lemmas use. */
  function Product(s: seq<Outcome>, f: Outcome -> real): real
    decreases |s|
  {
    if s == [] then 1.0 else f(s[0]) * Product(s[1..], f)
  }

  /** Folding from `acc` is multiplying `acc` by the product. */
  lemma {:induction false} FoldIsProduct(acc: real, s: seq<Outcome>, f: Outcome -> real)
    ensures Fold(acc, s, f) == acc * Product(s, f)
    decreases |s|
  {
    if s != [] {
      FoldIsProduct(acc * f(s[0]), s[1..], f);
      assert acc * f(s[0]) * Product(s[1..], f) == acc * (f(s[0]) * Product(s[1..], f));
    }
  }

  lemma {:induction false} ProductAppend(s: seq<Outcome>, t: seq<Outcome>, f: Outcome -> real)
    ensures Product(s + t, f) == Product(s, f) * Product(t, f)
    decreases |s|
  {
    if s == [] {
      assert s + t == t;
    } else {
      assert (s + t)[1..] == s[1..] + t;
      ProductAppend(s[1..], t, f);
      assert f(s[0]) * (Product(s[1..], f) * Product(t, f))
          == (f(s[0]) * Product(s[1..], f)) * Product(t, f);
    }
  }

  lemma SwapFactor(a: real, b: real, c: real)
    ensures a * (c * b) == c * (a * b)
  {
  }

  lemma MulMono(a: real, b: real, c: real, d: real)
    requires 0.0 <= a <= b && 0.0 <= c <= d
    ensures 0.0 <= a * c <= b * d
  {
    assert a * c <= b * c;
    assert b * c <= b * d;
  }

  /** Taking out the element at `i` divides the product by its factor. */
  lemma {:induction false} ProductRemove(s: seq<Outcome>, i: nat, f: Outcome -> real)
    requires i < |s|
    ensures Product(s, f) == f(s[i]) * Product(s[..i] + s[i + 1..], f)
    decreases i
  {
    if i == 0 {
      assert s[..0] + s[1..] == s[1..];
    } else {
      var t := s[1..];
      ProductRemove(t, i - 1, f);
      var r := t[..i - 1] + t[i..];
      assert s[..i] + s[i + 1..] == [s[0]] + r;
      assert ([s[0]] + r)[1..] == r;
      assert t[i - 1] == s[i];
      SwapFactor(f(s[0]), Product(r, f), f(s[i]));
    }
  }

  /** Taking out the element at `i` takes one copy of it out of the multiset. */
  lemma MultisetRemove(t: seq<Outcome>, i: nat)
    requires i < |t|
    ensures multiset(t[..i] + t[i + 1..]) == multiset(t) - multiset{t[i]}
  {
    assert t == t[..i] + [t[i]] + t[i + 1..];
    assert multiset(t) == multiset(t[..i]) + multiset{t[i]} + multiset(t[i + 1..]);
  }

  /** If the rest of `s` and `t` without its element `i` have the same product,
      and that element is the head of `s`, then `s` and `t` have the same product. */
  lemma {:induction false} ProductStep(s: seq<Outcome>, t: seq<Outcome>, i: nat, f: Outcome -> real)
    requires s != [] && i < |t| && t[i] == s[0]
    requires Product(s[1..], f) == Product(t[..i] + t[i + 1..], f)
    ensures Product(s, f) == Product(t, f)
  {
    ProductRemove(t, i, f);
  }

  /** Removing the head of `s` and a copy of it from a permutation `t` of `s`
      leaves a permutation. */
  lemma {:induction false} RestPermutation(s: seq<Outcome>, t: seq<Outcome>, i: nat)
    requires s != [] && i < |t| && t[i] == s[0] && multiset(s) == multiset(t)
    ensures multiset(s[1..]) == multiset(t[..i] + t[i + 1..])
  {
    MultisetRemove(t, i);
    assert s == [s[0]] + s[1..];
    assert multiset(s) == multiset{s[0]} + multiset(s[1..]);
  }

  /** Where the head of `s` sits in a permutation `t` of it. */
  lemma {:induction false} MatchHead(s: seq<Outcome>, t: seq<Outcome>) returns (i: nat)
    requires s != [] && multiset(s) == multiset(t)
    ensures i < |t| && t[i] == s[0]
  {
    assert s[0] in multiset(t);
    i :| 0 <= i < |t| && t[i] == s[0];
  }

  /** The product does not depend on the order of the outcomes. */
  lemma {:induction false} ProductPermutation(s: seq<Outcome>, t: seq<Outcome>, f: Outcome -> real)
    requires multiset(s) == multiset(t)
    ensures Product(s, f) == Product(t, f)
    decreases |s|
  {
    if s != [] {
      var i := MatchHead(s, t);
      RestPermutation(s, t, i);
      ProductPermutation(s[1..], t[..i] + t[i + 1..], f);
      ProductStep(s, t, i, f);
    } else {
      assert |t| == |multiset(t)| == 0;
    }
  }

  /** `finalOdd` of the live engine: the uncapped product of all odds, as a fold. */
  function FinalOdd(s: seq<Outcome>): (r: real)
    ensures r == Product(s, Odds)
  {
    FoldIsProduct(1.0, s, Odds);
    Fold(1.0, s, Odds)
  }

  /** `difficultyMultiplier` of the builder: the product of the capped odds, as a fold. */
  function DifficultyMultiplier(s: seq<Outcome>): (r: real)
    ensures r == Product(s, CappedOdds)
    ensures s == [] ==> r == 1.0
  {
    FoldIsProduct(1.0, s, CappedOdds);
    Fold(1.0, s, CappedOdds)
  }

  /** 5% for every outcome beyond the third. */
  function LengthBonus(n: nat): (r: real)
    ensures r >= 0.0
    ensures n <= MinSequenceLength ==> r == 0.0
    ensures n >= MinSequenceLength ==> r == BonusPerExtraStep * (n - MinSequenceLength) as real
  {
    if n > 3 then 0.05 * (n - 3) as real else 0.0
  }

  /** The profit the live engine accrues for one fully successful pass. */
  function Profit(stake: real, s: seq<Outcome>): (r: real)
    ensures r == stake * Product(s, Odds) * (1.0 + LengthBonus(|s|))
  {
    stake * FinalOdd(s) * (1.0 + LengthBonus(|s|))
  }

  /** `potentialGains` of the builder's preview. */
  function PotentialGains(stake: real, s: seq<Outcome>): (r: real)
    ensures |s| < MinSequenceLength ==> r == 0.0
    ensures |s| >= MinSequenceLength ==> r == stake * Product(s, CappedOdds) * (1.0 + LengthBonus(|s|))
  {
    if |s| >= 3 then stake * DifficultyMultiplier(s) * (1.0 + LengthBonus(|s|)) else 0.0
  }

  /** The builder's preview does not depend on the order of the outcomes. */
  lemma {:induction false} PreviewOrderIndependent(stake: real, s: seq<Outcome>, t: seq<Outcome>)
    requires multiset(s) == multiset(t)
    ensures DifficultyMultiplier(s) == DifficultyMultiplier(t)
    ensures PotentialGains(stake, s) == PotentialGains(stake, t)
  {
    assert |s| == |multiset(s)| == |multiset(t)| == |t|;
    ProductPermutation(s, t, CappedOdds);
  }

  /** The live engine's profit does not depend on the order of the outcomes. */
  lemma {:induction false} ProfitOrderIndependent(stake: real, s: seq<Outcome>, t: seq<Outcome>)
    requires multiset(s) == multiset(t)
    ensures FinalOdd(s) == FinalOdd(t)
    ensures Profit(stake, s) == Profit(stake, t)
  {
    assert |s| == |multiset(s)| == |multiset(t)| == |t|;
    ProductPermutation(s, t, Odds);
  }

  predicate NonNegativeOdds(s: seq<Outcome>) {
    forall i :: 0 <= i < |s| ==> s[i].odds >= 0.0
  }

  predicate OddsWithinCap(s: seq<Outcome>) {
    forall i :: 0 <= i < |s| ==> s[i].odds <= MaxEventOdd
  }

  lemma {:induction false} CappedProductBounds(s: seq<Outcome>)
    requires NonNegativeOdds(s)
    ensures 0.0 <= Product(s, CappedOdds) <= Product(s, Odds)
    ensures OddsWithinCap(s) ==> Product(s, CappedOdds) == Product(s, Odds)
    decreases |s|
  {
    if s != [] {
      CappedProductBounds(s[1..]);
      MulMono(CappedOdds(s[0]), Odds(s[0]), Product(s[1..], CappedOdds), Product(s[1..], Odds));
    }
  }

  /** With non-negative odds and stake the preview never promises more than a full
      pass pays, and it promises exactly that when no odd exceeds the cap. */
  lemma PreviewVersusProfit(stake: real, s: seq<Outcome>)
    requires |s| >= MinSequenceLength && stake >= 0.0 && NonNegativeOdds(s)
    ensures PotentialGains(stake, s) <= Profit(stake, s)
    ensures OddsWithinCap(s) ==> PotentialGains(stake, s) == Profit(stake, s)
  {
    CappedProductBounds(s);
    var k := 1.0 + LengthBonus(|s|);
    MulMono(stake, stake, Product(s, CappedOdds), Product(s, Odds));
    MulMono(stake * Product(s, CappedOdds), stake * Product(s, Odds), k, k);
  }

  /** Each extra outcome raises the length bonus by 5%, from the fourth on. */
  lemma LengthBonusStep(n: nat)
    ensures LengthBonus(n + 1) == if n >= MinSequenceLength then LengthBonus(n) + BonusPerExtraStep else 0.0
  {
  }

  /** With positive odds the capped product is positive. */
  lemma {:induction false} CappedProductPositive(s: seq<Outcome>)
    requires forall i :: 0 <= i < |s| ==> s[i].odds > 0.0
    ensures Product(s, CappedOdds) > 0.0
    decreases |s|
  {
    if s != [] {
      assert forall i :: 0 <= i < |s[1..]| ==> s[1..][i].odds > 0.0 by {
        forall i | 0 <= i < |s[1..]|
          ensures s[1..][i].odds > 0.0
        {
          assert s[1..][i] == s[i + 1];
        }
      }
      CappedProductPositive(s[1..]);
      var a := CappedOdds(s[0]);
      var b := Product(s[1..], CappedOdds);
      assert a > 0.0;
      assert a * b > 0.0;
    }
  }

  function Leg(odds: real): Outcome {
    Outcome("", "", "", odds, 0, Success, Wrappers.Some(true))
  }

  /** Three legs at 1.4, 1.5 and 1.3 on a stake of 10: no length bonus, profit 27.3. */
  lemma ThreeLegProfit()
    ensures Profit(10.0, [Leg(1.4), Leg(1.5), Leg(1.3)]) == 27.3
  {
    var s := [Leg(1.4), Leg(1.5), Leg(1.3)];
    assert s[1..][1..][1..] == [];
    assert Product(s[1..][1..], Odds) == 1.3;
    assert Product(s[1..], Odds) == 1.5 * 1.3;
    assert Product(s, Odds) == 2.73;
  }

  /** Five legs at 1.2 on a stake of 10: a 10% bonus, profit 27.37152. */
  lemma FiveLegProfit()
    ensures Profit(10.0, [Leg(1.2), Leg(1.2), Leg(1.2), Leg(1.2), Leg(1.2)]) == 27.37152
  {
    var s := [Leg(1.2), Leg(1.2), Leg(1.2), Leg(1.2), Leg(1.2)];
    assert s[4..][1..] == [];
    assert Product(s[4..], Odds) == 1.2;
    assert s[3..][1..] == s[4..];
    assert Product(s[3..], Odds) == 1.44;
    assert s[2..][1..] == s[3..];
    assert Product(s[2..], Odds) == 1.728;
    assert s[1..][1..] == s[2..];
    assert Product(s[1..], Odds) == 2.0736;
    assert s[0..][1..] == s[1..];
    assert Product(s, Odds) == 2.48832;
    assert LengthBonus(5) == 0.1;
  }
}
