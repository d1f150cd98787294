/** The sequence builder: the user assembles the list of outcomes to bet on,
    from the catalog, from a preset or through the keyword search, reorders it,
    sets a stake and sees the capped payout preview; the bet can be placed once
    there are three outcomes and a positive stake. */
module SequenceBuilder {
  import opened Wrappers
  import opened Text
  import opened Outcomes
  import Payout
  import Players

  // ---------------------------------------------------------------- catalog

  predicate IsTeamLevel(t: Template) {
    t.category == "team-goals" || t.category == "team-fouls"
  }

  /** What `expandedTemplates` makes of one catalog entry: a team-level
      template becomes one variant per team, with `{playerName}` replaced by
      the team's name; any other template is kept as it is. */
  function Variants(t: Template, player1: string, player2: string): (r: seq<Template>)
    ensures !IsTeamLevel(t) ==> r == [t]
    ensures IsTeamLevel(t) ==> |r| == 2
    ensures IsTeamLevel(t) ==>
      r[0] == t.(id := t.id + "-player1", description := ReplaceFirst(t.description, "{playerName}", player1))
    ensures IsTeamLevel(t) ==>
      r[1] == t.(id := t.id + "-player2", description := ReplaceFirst(t.description, "{playerName}", player2))
  {
    if IsTeamLevel(t) then
      [t.(id := t.id + "-player1", description := ReplaceFirst(t.description, "{playerName}", player1)),
       t.(id := t.id + "-player2", description := ReplaceFirst(t.description, "{playerName}", player2))]
    else [t]
  }

  /** `expandedTemplates`: the variants of every catalog entry, in catalog order. */
  function Expand(catalog: seq<Template>, player1: string, player2: string): seq<Template>
    decreases |catalog|
  {
    if |catalog| == 0 then [] else Variants(catalog[0], player1, player2) + Expand(catalog[1..], player1, player2)
  }

  function TeamLevelCount(catalog: seq<Template>): nat
    decreases |catalog|
  {
    if |catalog| == 0 then 0 else (if IsTeamLevel(catalog[0]) then 1 else 0) + TeamLevelCount(catalog[1..])
  }

  /** Expansion adds exactly one entry per team-level template. */
  lemma {:induction false} ExpandLength(catalog: seq<Template>, player1: string, player2: string)
    ensures |Expand(catalog, player1, player2)| == |catalog| + TeamLevelCount(catalog)
    decreases |catalog|
  {
    if catalog != [] {
      ExpandLength(catalog[1..], player1, player2);
    }
  }

  /** Every expanded entry is a variant of some catalog entry, and every
      variant of every catalog entry is offered. */
  lemma {:induction false} ExpandMembers(catalog: seq<Template>, player1: string, player2: string, x: Template)
    ensures x in Expand(catalog, player1, player2) <==>
      exists i :: 0 <= i < |catalog| && x in Variants(catalog[i], player1, player2)
    decreases |catalog|
  {
    if catalog != [] {
      ExpandMembers(catalog[1..], player1, player2, x);
      if exists i :: 0 <= i < |catalog| && x in Variants(catalog[i], player1, player2) {
        var i :| 0 <= i < |catalog| && x in Variants(catalog[i], player1, player2);
        if i > 0 {
          assert catalog[1..][i - 1] == catalog[i];
        }
      }
      if x in Expand(catalog[1..], player1, player2) {
        var i :| 0 <= i < |catalog[1..]| && x in Variants(catalog[1..][i], player1, player2);
        assert catalog[i + 1] == catalog[1..][i];
      }
    }
  }

  /** Expansion keeps what the payout and the live engine depend on: category,
      odds, time window and whether a player can be chosen. */
  lemma VariantsKeepTerms(t: Template, player1: string, player2: string, x: Template)
    requires x in Variants(t, player1, player2)
    ensures x.category == t.category && x.odds == t.odds && x.timeLimit == t.timeLimit
    ensures x.allowPlayerSelection == t.allowPlayerSelection
  {
  }

  /** `OUTCOME_TEMPLATES.find(t => t.id === id)`. */
  function FindTemplate(catalog: seq<Template>, id: string): (r: Option<Template>)
    ensures r.Some? ==> r.value in catalog && r.value.id == id
    ensures r.None? <==> forall i :: 0 <= i < |catalog| ==> catalog[i].id != id
    decreases |catalog|
  {
    if |catalog| == 0 then None
    else if catalog[0].id == id then Some(catalog[0])
    else FindTemplate(catalog[1..], id)
  }

  // ------------------------------------------------------- list operations

  /** The outcome `addOutcome` makes: `{playerName}` is filled in only when a
      player is given and the template allows one, and the player's odds
      modifier, if any, is added to the template's odds. */
  function BuilderOutcome(t: Template, player: Option<Players.Player>, now: int): (o: Outcome)
    ensures o.id == t.id + "-" + IntToString(now) && o.category == t.category
    ensures o.timeLimit == t.timeLimit && o.status == Pending && o.result.None?
    ensures o.odds == t.odds + (if player.Some? then player.value.member.oddsModifier.GetOr(0.0) else 0.0)
    ensures !(player.Some? && t.allowPlayerSelection) ==> o.description == t.description
    ensures player.Some? && t.allowPlayerSelection ==>
      o.description == ReplaceFirst(t.description, "{playerName}", player.value.member.name)
  {
    var description :=
      if player.Some? && t.allowPlayerSelection then ReplaceFirst(t.description, "{playerName}", player.value.member.name)
      else t.description;
    var modifier := match player
      case Some(p) => p.member.oddsModifier.GetOr(0.0)
      case None => 0.0;
    Outcome(t.id + "-" + IntToString(now), t.category, description, t.odds + modifier, t.timeLimit, Pending, None)
  }

  /** `filter(o => o.id !== id)`. */
  function DropId(s: seq<Outcome>, id: string): (r: seq<Outcome>)
    ensures |r| <= |s|
    ensures forall o :: o in r <==> o in s && o.id != id
    decreases |s|
  {
    if |s| == 0 then []
    else if s[0].id == id then DropId(s[1..], id)
    else [s[0]] + DropId(s[1..], id)
  }

  /** Removal works piecewise, so the kept outcomes stay in their order. */
  lemma {:induction false} DropIdAppend(s: seq<Outcome>, t: seq<Outcome>, id: string)
    ensures DropId(s + t, id) == DropId(s, id) + DropId(t, id)
    decreases |s|
  {
    if s == [] {
      assert s + t == t;
    } else {
      assert (s + t)[0] == s[0];
      assert (s + t)[1..] == s[1..] + t;
      DropIdAppend(s[1..], t, id);
    }
  }

  /** Removing an id that is not there changes nothing. */
  lemma {:induction false} DropAbsentId(s: seq<Outcome>, id: string)
    requires forall k :: 0 <= k < |s| ==> s[k].id != id
    ensures DropId(s, id) == s
    decreases |s|
  {
    if s != [] {
      DropAbsentId(s[1..], id);
    }
  }

  /** The outcome `loadSequence` makes from catalog entry `t` for the id at
      position `index`, read at clock time `now`: the match names are filled
      in, then `{playerName}` gets the team name chosen by the coin
      `pickFirst`. */
  function PresetOutcome(t: Template, player1: string, player2: string, pickFirst: bool, now: int, index: nat): (o: Outcome)
    ensures o.category == t.category && o.odds == t.odds && o.timeLimit == t.timeLimit
    ensures o.status == Pending && o.result.None?
    ensures o.id == t.id + "-" + IntToString(now) + "-" + IntToString(index)
    ensures var named := ReplaceFirst(ReplaceFirst(t.description, "{player1}", player1), "{player2}", player2);
      o.description == ReplaceFirst(named, "{playerName}", if pickFirst then player1 else player2)
  {
    var named := ReplaceFirst(ReplaceFirst(t.description, "{player1}", player1), "{player2}", player2);
    var description := ReplaceFirst(named, "{playerName}", if pickFirst then player1 else player2);
    Outcome(t.id + "-" + IntToString(now) + "-" + IntToString(index), t.category, description, t.odds, t.timeLimit, Pending, None)
  }

  /** `loadSequence` from position `k` of the preset on. The coin `picks[j]`
      and the clock reading `nows[j]` are those taken while mapping the id at
      position `j`. */
  function LoadFrom(catalog: seq<Template>, ids: seq<string>, picks: seq<bool>, nows: seq<int>,
                    player1: string, player2: string, k: nat): (r: seq<Outcome>)
    requires |picks| == |ids| && |nows| == |ids| && k <= |ids|
    ensures |r| <= |ids| - k
    ensures forall o :: o in r ==> IsPending(o) && o.result.None?
    decreases |ids| - k
  {
    if k == |ids| then []
    else
      var rest := LoadFrom(catalog, ids, picks, nows, player1, player2, k + 1);
      match FindTemplate(catalog, ids[k])
      case None => rest
      case Some(t) => [PresetOutcome(t, player1, player2, picks[k], nows[k], k)] + rest
  }

  /** The positions from `k` on whose id names a catalog entry, in increasing order. */
  function KnownPositions(catalog: seq<Template>, ids: seq<string>, k: nat): (r: seq<nat>)
    requires k <= |ids|
    ensures forall i :: 0 <= i < |r| ==> k <= r[i] < |ids|
    decreases |ids| - k
  {
    if k == |ids| then []
    else (if FindTemplate(catalog, ids[k]).Some? then [k] else []) + KnownPositions(catalog, ids, k + 1)
  }

  predicate Increasing(r: seq<nat>) {
    forall i, j :: 0 <= i < j < |r| ==> r[i] < r[j]
  }

  lemma ConsIncreasing(k: nat, rest: seq<nat>)
    requires Increasing(rest)
    requires forall i :: 0 <= i < |rest| ==> k < rest[i]
    ensures Increasing([k] + rest)
  {
    var r := [k] + rest;
    forall i, j | 0 <= i < j < |r| ensures r[i] < r[j] {
      assert r[j] == rest[j - 1];
      if i > 0 {
        assert r[i] == rest[i - 1];
      }
    }
  }

  lemma {:induction false} KnownPositionsIncreasing(catalog: seq<Template>, ids: seq<string>, k: nat)
    requires k <= |ids|
    ensures Increasing(KnownPositions(catalog, ids, k))
    decreases |ids| - k
  {
    if k < |ids| {
      KnownPositionsIncreasing(catalog, ids, k + 1);
      var rest := KnownPositions(catalog, ids, k + 1);
      if FindTemplate(catalog, ids[k]).Some? {
        assert KnownPositions(catalog, ids, k) == [k] + rest;
        ConsIncreasing(k, rest);
      }
    }
  }

  lemma {:induction false} KnownPositionsMembers(catalog: seq<Template>, ids: seq<string>, k: nat, j: int)
    requires k <= |ids|
    ensures j in KnownPositions(catalog, ids, k) <==> k <= j < |ids| && FindTemplate(catalog, ids[j]).Some?
    decreases |ids| - k
  {
    if k < |ids| {
      KnownPositionsMembers(catalog, ids, k + 1, j);
    }
  }

  /** The known positions are listed in increasing order, and a position is
      listed exactly when its id names a catalog entry. */
  lemma KnownPositionsExact(catalog: seq<Template>, ids: seq<string>, k: nat)
    requires k <= |ids|
    ensures var r := KnownPositions(catalog, ids, k);
      && Increasing(r)
      && (forall j :: j in r <==> k <= j < |ids| && FindTemplate(catalog, ids[j]).Some?)
  {
    KnownPositionsIncreasing(catalog, ids, k);
    forall j ensures j in KnownPositions(catalog, ids, k) <==> k <= j < |ids| && FindTemplate(catalog, ids[j]).Some? {
      KnownPositionsMembers(catalog, ids, k, j);
    }
  }

  /** `o` is the outcome made from the id at position `j`. */
  predicate LoadedOne(o: Outcome, catalog: seq<Template>, ids: seq<string>, picks: seq<bool>, nows: seq<int>,
                      player1: string, player2: string, j: nat)
    requires |picks| == |ids| && |nows| == |ids| && j < |ids|
  {
    && FindTemplate(catalog, ids[j]).Some?
    && o == PresetOutcome(FindTemplate(catalog, ids[j]).value, player1, player2, picks[j], nows[j], j)
  }

  /** `r` holds, in order, the outcomes made from the ids at the positions `known`. */
  predicate LoadedAt(r: seq<Outcome>, known: seq<nat>, catalog: seq<Template>, ids: seq<string>,
                     picks: seq<bool>, nows: seq<int>, player1: string, player2: string)
    requires |picks| == |ids| && |nows| == |ids|
    requires forall i :: 0 <= i < |known| ==> known[i] < |ids|
  {
    && |r| == |known|
    && forall i :: 0 <= i < |known| ==> LoadedOne(r[i], catalog, ids, picks, nows, player1, player2, known[i])
  }

  /** Putting one more pair in front of two sequences that agree
      position by position under `good` keeps them agreeing. */
  lemma ConsPairs<T>(o: T, r: seq<T>, k: nat, known: seq<nat>, good: (T, nat) -> bool)
    requires |r| == |known| && forall i :: 0 <= i < |r| ==> good(r[i], known[i])
    requires good(o, k)
    ensures forall i :: 0 <= i < |r| + 1 ==> good(([o] + r)[i], ([k] + known)[i])
  {
    forall i | 0 <= i < |r| + 1
      ensures good(([o] + r)[i], ([k] + known)[i])
    {
      if i > 0 {
        assert ([o] + r)[i] == r[i - 1] && ([k] + known)[i] == known[i - 1];
      }
    }
  }

  lemma ConsLoaded(o: Outcome, r: seq<Outcome>, known: seq<nat>, catalog: seq<Template>, ids: seq<string>,
                   picks: seq<bool>, nows: seq<int>, player1: string, player2: string, k: nat)
    requires |picks| == |ids| && |nows| == |ids| && k < |ids|
    requires forall i :: 0 <= i < |known| ==> known[i] < |ids|
    requires LoadedAt(r, known, catalog, ids, picks, nows, player1, player2)
    requires LoadedOne(o, catalog, ids, picks, nows, player1, player2, k)
    ensures LoadedAt([o] + r, [k] + known, catalog, ids, picks, nows, player1, player2)
  {
    var good := (x: Outcome, j: nat) => j < |ids| && LoadedOne(x, catalog, ids, picks, nows, player1, player2, j);
    ConsPairs(o, r, k, known, good);
    var r' := [o] + r;
    var known' := [k] + known;
    forall i | 0 <= i < |known'|
      ensures LoadedOne(r'[i], catalog, ids, picks, nows, player1, player2, known'[i])
    {
      assert good(r'[i], known'[i]);
    }
  }

  /** For any preset: unknown ids are dropped, and the `i`-th outcome loaded
      is made from the `i`-th known id, with that id's own position, coin and
      clock reading, so the known ids keep their order. */
  lemma {:induction false} LoadKnown(catalog: seq<Template>, ids: seq<string>, picks: seq<bool>, nows: seq<int>,
                                     player1: string, player2: string, k: nat)
    requires |picks| == |ids| && |nows| == |ids| && k <= |ids|
    ensures LoadedAt(LoadFrom(catalog, ids, picks, nows, player1, player2, k), KnownPositions(catalog, ids, k),
                     catalog, ids, picks, nows, player1, player2)
    decreases |ids| - k
  {
    if k < |ids| {
      LoadKnown(catalog, ids, picks, nows, player1, player2, k + 1);
      var rest := LoadFrom(catalog, ids, picks, nows, player1, player2, k + 1);
      var restKnown := KnownPositions(catalog, ids, k + 1);
      var r := LoadFrom(catalog, ids, picks, nows, player1, player2, k);
      var known := KnownPositions(catalog, ids, k);
      match FindTemplate(catalog, ids[k])
      case None =>
        assert r == rest && known == restKnown;
      case Some(t) =>
        assert r == [PresetOutcome(t, player1, player2, picks[k], nows[k], k)] + rest;
        assert known == [k] + restKnown;
        ConsLoaded(PresetOutcome(t, player1, player2, picks[k], nows[k], k), rest, restKnown,
                   catalog, ids, picks, nows, player1, player2, k);
    }
  }

  /** With every id known, the preset loads in the given order, position by position. */
  lemma {:induction false} LoadAllKnown(catalog: seq<Template>, ids: seq<string>, picks: seq<bool>, nows: seq<int>,
                                        player1: string, player2: string, k: nat)
    requires |picks| == |ids| && |nows| == |ids| && k <= |ids|
    requires forall j :: k <= j < |ids| ==> FindTemplate(catalog, ids[j]).Some?
    ensures var r := LoadFrom(catalog, ids, picks, nows, player1, player2, k);
      && |r| == |ids| - k
      && forall j :: k <= j < |ids| ==>
           r[j - k] == PresetOutcome(FindTemplate(catalog, ids[j]).value, player1, player2, picks[j], nows[j], j)
    decreases |ids| - k
  {
    if k < |ids| {
      LoadAllKnown(catalog, ids, picks, nows, player1, player2, k + 1);
      var rest := LoadFrom(catalog, ids, picks, nows, player1, player2, k + 1);
      var t := FindTemplate(catalog, ids[k]).value;
      var r := LoadFrom(catalog, ids, picks, nows, player1, player2, k);
      assert r == [PresetOutcome(t, player1, player2, picks[k], nows[k], k)] + rest;
      forall j | k < j < |ids|
        ensures r[j - k] == PresetOutcome(FindTemplate(catalog, ids[j]).value, player1, player2, picks[j], nows[j], j)
      {
        assert r[j - k] == rest[j - (k + 1)];
      }
    }
  }

  /** `items.findIndex(item => item.id === id)`, with `None` for -1. */
  function FindIndex(s: seq<Outcome>, id: string): (r: Option<nat>)
    ensures r.Some? ==> r.value < |s| && s[r.value].id == id
    ensures r.Some? ==> forall j :: 0 <= j < r.value ==> s[j].id != id
    ensures r.None? <==> forall j :: 0 <= j < |s| ==> s[j].id != id
    decreases |s|
  {
    if |s| == 0 then None
    else if s[0].id == id then Some(0)
    else match FindIndex(s[1..], id)
      case None => None
      case Some(i) => Some(i + 1)
  }

  // ---------------------------------------------------------------- search

  /** A query term and the id fragments it points at. */
  datatype QueryTerm = QueryTerm(term: string, fragments: seq<string>)

  /** Entry `i` of the fixed term table: a term found in the query adds 25
      for each of its id fragments found in the template id. */
  function TermEntry(i: nat): QueryTerm
    requires i < TermCount
  {
    if i == 0 then QueryTerm("goal", ["scores", "goal"])
    else if i == 1 then QueryTerm("score", ["scores"])
    else if i == 2 then QueryTerm("corner", ["corner"])
    else if i == 3 then QueryTerm("shot", ["shot"])
    else if i == 4 then QueryTerm("yellow", ["yellow"])
    else if i == 5 then QueryTerm("card", ["yellow", "card"])
    else if i == 6 then QueryTerm("attack", ["attack"])
    else if i == 7 then QueryTerm("save", ["save"])
    else if i == 8 then QueryTerm("goalkeeper", ["save", "goalkeeper"])
    else if i == 9 then QueryTerm("free kick", ["free-kick"])
    else if i == 10 then QueryTerm("offside", ["offside"])
    else if i == 11 then QueryTerm("penalty", ["penalty"])
    else QueryTerm("substitution", ["substitution"])
  }

  /** Number of entries of `termMatches`, visited in the order listed. */
  const TermCount: nat := 13

  const FullMatchPoints: nat := 100
  const TeamHintPoints: nat := 30
  const TermPoints: nat := 25

  /** The words of the query longer than two UTF-16 code units, in order; a
      word that is repeated is kept as often as it occurs. */
  function LongWords(words: seq<string>): (r: seq<string>)
    ensures forall w :: w in r <==> w in words && Utf16Length(w) > 2
    decreases |words|
  {
    if |words| == 0 then []
    else (if Utf16Length(words[0]) > 2 then [words[0]] else []) + LongWords(words[1..])
  }

  /** A long word is kept as often as it occurs; a short one never. */
  lemma {:induction false} LongWordsCount(words: seq<string>, w: string)
    ensures multiset(LongWords(words))[w] == if Utf16Length(w) > 2 then multiset(words)[w] else 0
    decreases |words|
  {
    if words != [] {
      assert words == [words[0]] + words[1..];
      LongWordsCount(words[1..], w);
    }
  }

  /** The filter works piecewise, so the kept words keep their order. */
  lemma {:induction false} LongWordsAppend(s: seq<string>, t: seq<string>)
    ensures LongWords(s + t) == LongWords(s) + LongWords(t)
    decreases |s|
  {
    if s == [] {
      assert s + t == t;
    } else {
      assert (s + t)[0] == s[0];
      assert (s + t)[1..] == s[1..] + t;
      LongWordsAppend(s[1..], t);
    }
  }

  /** `searchLower.split(' ').filter(word => word.length > 2)`: each piece
      longer than two UTF-16 code units, as often as it occurs (`KeywordsCount`). */
  function Keywords(searchLower: string): (r: seq<string>)
    ensures forall w :: w in r <==> w in SplitSpaces(searchLower) && Utf16Length(w) > 2
  {
    LongWords(SplitSpaces(searchLower))
  }

  /** A piece of the query longer than two UTF-16 code units is a keyword as often as it is a piece. */
  lemma KeywordsCount(searchLower: string, w: string)
    ensures multiset(Keywords(searchLower))[w] == if Utf16Length(w) > 2 then multiset(SplitSpaces(searchLower))[w] else 0
  {
    LongWordsCount(SplitSpaces(searchLower), w);
  }

  /** Points one keyword earns: 20 in the description, 15 in the category, 10 in the id. */
  function KeywordPoints(keyword: string, descLower: string, categoryLower: string, id: string): nat {
    (if Contains(descLower, keyword) then 20 else 0)
    + (if Contains(categoryLower, keyword) then 15 else 0)
    + (if Contains(id, keyword) then 10 else 0)
  }

  function KeywordsPoints(keywords: seq<string>, descLower: string, categoryLower: string, id: string): nat
    decreases |keywords|
  {
    if |keywords| == 0 then 0
    else
      var last := keywords[|keywords| - 1];
      KeywordsPoints(keywords[..|keywords| - 1], descLower, categoryLower, id) + KeywordPoints(last, descLower, categoryLower, id)
  }

  /** One more query word adds its own points when it is longer than two
      UTF-16 code units, even when the same word came earlier. */
  lemma KeywordsPointsSnoc(words: seq<string>, w: string, descLower: string, categoryLower: string, id: string)
    ensures KeywordsPoints(LongWords(words + [w]), descLower, categoryLower, id)
         == KeywordsPoints(LongWords(words), descLower, categoryLower, id)
          + (if Utf16Length(w) > 2 then KeywordPoints(w, descLower, categoryLower, id) else 0)
  {
    LongWordsAppend(words, [w]);
    assert [w][1..] == [];
    var kept := LongWords(words);
    if Utf16Length(w) > 2 {
      assert (kept + [w])[..|kept|] == kept;
    } else {
      assert kept + [] == kept;
    }
  }

  function FragmentPoints(fragments: seq<string>, id: string): nat
    decreases |fragments|
  {
    if |fragments| == 0 then 0
    else FragmentPoints(fragments[..|fragments| - 1], id) + (if Contains(id, fragments[|fragments| - 1]) then TermPoints else 0)
  }

  /** Points from the first `n` entries of the term table. */
  function TermsPoints(n: nat, searchLower: string, id: string): nat
    requires n <= TermCount
  {
    if n == 0 then 0
    else
      var entry := TermEntry(n - 1);
      TermsPoints(n - 1, searchLower, id) + (if Contains(searchLower, entry.term) then FragmentPoints(entry.fragments, id) else 0)
  }

  predicate HintsTeam1(searchLower: string, player1: string) {
    Contains(searchLower, "portugal") || Contains(searchLower, Lower(player1))
  }

  predicate HintsTeam2(searchLower: string, player2: string) {
    Contains(searchLower, "ireland") || Contains(searchLower, "armenia") || Contains(searchLower, Lower(player2))
  }

  /** The relevance of a template for the lower-cased query. */
  function Score(t: Template, searchLower: string, player1: string, player2: string): nat {
    (if Contains(Lower(t.description), searchLower) then FullMatchPoints else 0)
    + KeywordsPoints(Keywords(searchLower), Lower(t.description), Lower(t.category), t.id)
    + (if HintsTeam1(searchLower, player1) && Contains(t.id, "player1") then TeamHintPoints else 0)
    + (if HintsTeam2(searchLower, player2) && Contains(t.id, "player2") then TeamHintPoints else 0)
    + TermsPoints(TermCount, searchLower, t.id)
  }

  /** A template whose description holds the whole query always makes the cut of positive scores. */
  lemma FullMatchScores(t: Template, searchLower: string, player1: string, player2: string)
    requires Contains(Lower(t.description), searchLower)
    ensures Score(t, searchLower, player1, player2) >= FullMatchPoints
  {
  }

  /** The `keywords.forEach` loop. */
  method ScoreKeywords(keywords: seq<string>, descLower: string, categoryLower: string, id: string)
    returns (points: nat)
    ensures points == KeywordsPoints(keywords, descLower, categoryLower, id)
  {
    points := 0;
    var i := 0;
    while i < |keywords|
      invariant 0 <= i <= |keywords|
      invariant points == KeywordsPoints(keywords[..i], descLower, categoryLower, id)
    {
      var keyword := keywords[i];
      if Contains(descLower, keyword) {
        points := points + 20;
      }
      if Contains(categoryLower, keyword) {
        points := points + 15;
      }
      if Contains(id, keyword) {
        points := points + 10;
      }
      assert keywords[..i + 1][..i] == keywords[..i];
      i := i + 1;
    }
    assert keywords[..i] == keywords;
  }

  /** The inner `ids.forEach` loop for one term found in the query. */
  method ScoreFragments(fragments: seq<string>, id: string) returns (points: nat)
    ensures points == FragmentPoints(fragments, id)
  {
    points := 0;
    var m := 0;
    while m < |fragments|
      invariant 0 <= m <= |fragments|
      invariant points == FragmentPoints(fragments[..m], id)
    {
      if Contains(id, fragments[m]) {
        points := points + TermPoints;
      }
      assert fragments[..m + 1][..m] == fragments[..m];
      m := m + 1;
    }
    assert fragments[..m] == fragments;
  }

  /** The `Object.entries(termMatches).forEach` loop. */
  method ScoreTerms(searchLower: string, id: string) returns (points: nat)
    ensures points == TermsPoints(TermCount, searchLower, id)
  {
    points := 0;
    var k := 0;
    while k < TermCount
      invariant 0 <= k <= TermCount
      invariant points == TermsPoints(k, searchLower, id)
    {
      var entry := TermEntry(k);
      if Contains(searchLower, entry.term) {
        var gained := ScoreFragments(entry.fragments, id);
        points := points + gained;
      }
      k := k + 1;
    }
  }

  /** The scoring callback of `handleChatSearch`. */
  method ScoreTemplate(t: Template, searchLower: string, keywords: seq<string>, player1: string, player2: string)
    returns (score: nat)
    requires keywords == Keywords(searchLower)
    ensures score == Score(t, searchLower, player1, player2)
  {
    score := 0;
    var descLower := Lower(t.description);
    var categoryLower := Lower(t.category);
    if Contains(descLower, searchLower) {
      score := score + FullMatchPoints;
    }
    var fromKeywords := ScoreKeywords(keywords, descLower, categoryLower, t.id);
    score := score + fromKeywords;
    if HintsTeam1(searchLower, player1) {
      if Contains(t.id, "player1") {
        score := score + TeamHintPoints;
      }
    }
    if HintsTeam2(searchLower, player2) {
      if Contains(t.id, "player2") {
        score := score + TeamHintPoints;
      }
    }
    var fromTerms := ScoreTerms(searchLower, t.id);
    score := score + fromTerms;
  }

  datatype Candidate = Candidate(template: Template, score: nat)

  /** Every template paired with its score, in the order of the pool (see ScoreAllAt). */
  function ScoreAll(ts: seq<Template>, searchLower: string, player1: string, player2: string): (r: seq<Candidate>)
    ensures |r| == |ts|
    decreases |ts|
  {
    if |ts| == 0 then []
    else
      var last := ts[|ts| - 1];
      ScoreAll(ts[..|ts| - 1], searchLower, player1, player2) + [Candidate(last, Score(last, searchLower, player1, player2))]
  }

  /** Position `i` of the pool pairs the template at `i` with that template's score. */
  lemma {:induction false} ScoreAllAt(ts: seq<Template>, searchLower: string, player1: string, player2: string, i: nat)
    requires i < |ts|
    ensures ScoreAll(ts, searchLower, player1, player2)[i] == Candidate(ts[i], Score(ts[i], searchLower, player1, player2))
    decreases |ts|
  {
    var init := ts[..|ts| - 1];
    if i < |ts| - 1 {
      ScoreAllAt(init, searchLower, player1, player2, i);
      assert init[i] == ts[i];
    }
  }

  /** Scoring one more template of the pool appends its candidate. */
  lemma ScoreAllSnoc(ts: seq<Template>, searchLower: string, player1: string, player2: string, i: nat)
    requires i < |ts|
    ensures ScoreAll(ts[..i + 1], searchLower, player1, player2)
      == ScoreAll(ts[..i], searchLower, player1, player2) + [Candidate(ts[i], Score(ts[i], searchLower, player1, player2))]
  {
    assert ts[..i + 1][..i] == ts[..i];
  }

  /** The `expandedTemplates.map` that pairs every template with its score. */
  method ScorePool(ts: seq<Template>, searchLower: string, player1: string, player2: string)
    returns (scored: seq<Candidate>)
    ensures scored == ScoreAll(ts, searchLower, player1, player2)
  {
    var keywords := Keywords(searchLower);
    scored := [];
    var i := 0;
    while i < |ts|
      invariant 0 <= i <= |ts|
      invariant scored == ScoreAll(ts[..i], searchLower, player1, player2)
    {
      var score := ScoreTemplate(ts[i], searchLower, keywords, player1, player2);
      ScoreAllSnoc(ts, searchLower, player1, player2, i);
      scored := scored + [Candidate(ts[i], score)];
      i := i + 1;
    }
    assert ts[..i] == ts;
  }

  /** `filter(({ score }) => score > 0)`. */
  function Positive(cs: seq<Candidate>): (r: seq<Candidate>)
    ensures forall c :: c in r <==> c in cs && c.score > 0
    decreases |cs|
  {
    if |cs| == 0 then []
    else (if cs[0].score > 0 then [cs[0]] else []) + Positive(cs[1..])
  }

  predicate NonIncreasing(cs: seq<Candidate>) {
    forall i, j :: 0 <= i < j < |cs| ==> cs[i].score >= cs[j].score
  }

  /** Puts `c` in front of the first candidate that does not score more, so
      that among equal scores the earlier candidate stays first. */
  function InsertByScore(c: Candidate, s: seq<Candidate>): (r: seq<Candidate>)
    ensures |r| == |s| + 1
    ensures multiset(r) == multiset(s) + multiset{c}
    decreases |s|
  {
    if s == [] || c.score >= s[0].score then [c] + s
    else
      var rest := InsertByScore(c, s[1..]);
      assert s == [s[0]] + s[1..];
      [s[0]] + rest
  }

  /** Insertion adds no candidate scoring above a bound that the list and the candidate respect. */
  lemma InsertBound(c: Candidate, s: seq<Candidate>, bound: nat)
    requires c.score <= bound
    requires forall k :: 0 <= k < |s| ==> s[k].score <= bound
    ensures forall x :: x in InsertByScore(c, s) ==> x.score <= bound
  {
    var r := InsertByScore(c, s);
    forall x | x in r ensures x.score <= bound {
      assert x in multiset(r);
      assert x in multiset(s) || x == c;
      if x != c {
        assert x in s;
      }
    }
  }

  lemma {:induction false} InsertSorted(c: Candidate, s: seq<Candidate>)
    requires NonIncreasing(s)
    ensures NonIncreasing(InsertByScore(c, s))
    decreases |s|
  {
    var r := InsertByScore(c, s);
    if s == [] || c.score >= s[0].score {
      assert r == [c] + s;
      forall i, j | 0 <= i < j < |r|
        ensures r[i].score >= r[j].score
      {
        if i == 0 {
          assert r[j] == s[j - 1];
        } else {
          assert r[i] == s[i - 1] && r[j] == s[j - 1];
        }
      }
    } else {
      var rest := InsertByScore(c, s[1..]);
      assert r == [s[0]] + rest;
      InsertSorted(c, s[1..]);
      forall i, j | 0 <= i < j < |r|
        ensures r[i].score >= r[j].score
      {
        if i == 0 {
          forall k | 0 <= k < |s[1..]| ensures s[1..][k].score <= s[0].score {
            assert s[1..][k] == s[k + 1];
          }
          InsertBound(c, s[1..], s[0].score);
          assert rest[j - 1] in rest;
        } else {
          assert r[i] == rest[i - 1] && r[j] == rest[j - 1];
        }
      }
    }
  }

  /** The stable sort by descending score (`sort((a, b) => b.score - a.score)`). */
  function SortByScore(cs: seq<Candidate>): (r: seq<Candidate>)
    ensures |r| == |cs|
    ensures multiset(r) == multiset(cs)
    ensures NonIncreasing(r)
    decreases |cs|
  {
    if |cs| == 0 then []
    else
      assert cs == [cs[0]] + cs[1..];
      InsertSorted(cs[0], SortByScore(cs[1..]));
      InsertByScore(cs[0], SortByScore(cs[1..]))
  }

  const MaxResults: nat := 6

  /** The candidates shown: the positive ones, best first, at most six. */
  function TopCandidates(pool: seq<Candidate>): seq<Candidate> {
    var sorted := SortByScore(Positive(pool));
    if |sorted| <= MaxResults then sorted else sorted[..MaxResults]
  }

  /** At most six results, all with a positive score, best first, each from the pool. */
  lemma TopCandidatesSound(pool: seq<Candidate>)
    ensures var r := TopCandidates(pool);
      && |r| <= MaxResults
      && (forall c :: c in r ==> c in pool && c.score > 0)
      && NonIncreasing(r)
  {
    var positive := Positive(pool);
    var sorted := SortByScore(positive);
    var r := TopCandidates(pool);
    forall c | c in r
      ensures c in pool && c.score > 0
    {
      assert c in sorted;
      assert c in multiset(sorted);
      assert c in positive;
    }
  }

  /** Nothing left out scores more than the weakest result shown, and
      something is left out only when six are shown. */
  lemma TopCandidatesComplete(pool: seq<Candidate>)
    ensures var r := TopCandidates(pool);
      forall c :: c in pool && c.score > 0 && c !in r ==> |r| == MaxResults && c.score <= r[MaxResults - 1].score
  {
    var positive := Positive(pool);
    var sorted := SortByScore(positive);
    var r := TopCandidates(pool);
    forall c | c in pool && c.score > 0 && c !in r
      ensures |r| == MaxResults && c.score <= r[MaxResults - 1].score
    {
      assert c in multiset(positive);
      assert c in sorted;
      var j :| 0 <= j < |sorted| && sorted[j] == c;
      if j >= MaxResults {
        assert sorted[MaxResults - 1].score >= sorted[j].score;
      }
    }
  }

  function Templates(cs: seq<Candidate>): (r: seq<Template>)
    ensures |r| == |cs| && forall i :: 0 <= i < |cs| ==> r[i] == cs[i].template
  {
    seq(|cs|, i requires 0 <= i < |cs| => cs[i].template)
  }

  /** The results of `handleChatSearch` for a query that is not blank. */
  function SearchResults(ts: seq<Template>, chatInput: string, player1: string, player2: string): seq<Template> {
    Templates(TopCandidates(ScoreAll(ts, Lower(chatInput), player1, player2)))
  }

  // ---------------------------------------------------------------- payout preview

  /** A placeable bet previews a positive payout when every odd is positive. */
  lemma PreviewPositive(stake: real, s: seq<Outcome>)
    requires |s| >= Payout.MinSequenceLength && stake > 0.0
    requires forall k :: 0 <= k < |s| ==> s[k].odds > 0.0
    ensures Payout.PotentialGains(stake, s) > 0.0
  {
    Payout.CappedProductPositive(s);
    var p := Payout.Product(s, Payout.CappedOdds);
    var b := 1.0 + Payout.LengthBonus(|s|);
    assert stake * p > 0.0;
    assert (stake * p) * b > 0.0;
  }

  // ---------------------------------------------------------------- the screen

  class Builder {
    const player1: string
    const player2: string
    /** `OUTCOME_TEMPLATES`. */
    const catalog: seq<Template>
    var selectedOutcomes: seq<Outcome>
    var initialStake: real
    var searchResults: seq<Template>
    var showChatResults: bool

    /** The stake is never negative: the handlers only store a positive value or 0. */
    ghost predicate Valid()
      reads this
    {
      initialStake >= 0.0
    }

    constructor (player1: string, player2: string, catalog: seq<Template>)
      ensures this.player1 == player1 && this.player2 == player2 && this.catalog == catalog
      ensures selectedOutcomes == [] && initialStake == 0.0 && searchResults == [] && !showChatResults
      ensures Valid()
    {
      this.player1 := player1;
      this.player2 := player2;
      this.catalog := catalog;
      selectedOutcomes := [];
      initialStake := 0.0;
      searchResults := [];
      showChatResults := false;
    }

    method AddOutcome(template: Template, player: Option<Players.Player>, now: int)
      requires Valid()
      modifies this
      ensures Valid()
      ensures selectedOutcomes == old(selectedOutcomes) + [BuilderOutcome(template, player, now)]
      ensures initialStake == old(initialStake) && searchResults == old(searchResults)
      ensures showChatResults == old(showChatResults)
    {
      selectedOutcomes := selectedOutcomes + [BuilderOutcome(template, player, now)];
    }

    method RemoveOutcome(id: string)
      requires Valid()
      modifies this
      ensures Valid()
      ensures selectedOutcomes == DropId(old(selectedOutcomes), id)
      ensures initialStake == old(initialStake) && searchResults == old(searchResults)
      ensures showChatResults == old(showChatResults)
    {
      selectedOutcomes := DropId(selectedOutcomes, id);
    }

    /** `loadSequence(ids)`: the preset replaces the current list; `picks`
        and `nows` are the coin and the clock reading taken for each id. */
    method LoadSequence(ids: seq<string>, picks: seq<bool>, nows: seq<int>)
      requires Valid() && |picks| == |ids| && |nows| == |ids|
      modifies this
      ensures Valid()
      ensures selectedOutcomes == LoadFrom(catalog, ids, picks, nows, player1, player2, 0)
      ensures initialStake == old(initialStake) && searchResults == old(searchResults)
      ensures showChatResults == old(showChatResults)
    {
      selectedOutcomes := LoadFrom(catalog, ids, picks, nows, player1, player2, 0);
    }

    /** `handleDragEnd`: nothing happens without a target or when the item is
        dropped on itself; otherwise it moves to the target's place. */
    method HandleDragEnd(activeId: string, overId: Option<string>)
      requires Valid()
      modifies this
      ensures Valid()
      ensures overId.None? || overId.value == activeId ==> selectedOutcomes == old(selectedOutcomes)
      ensures overId.Some? && overId.value != activeId ==>
        var s := old(selectedOutcomes);
        var from := FindIndex(s, activeId);
        var to := FindIndex(s, overId.value);
        selectedOutcomes == if from.Some? && to.Some? then Move(s, from.value, to.value) else s
      ensures initialStake == old(initialStake) && searchResults == old(searchResults)
      ensures showChatResults == old(showChatResults)
    {
      if overId.Some? && activeId != overId.value {
        var from := FindIndex(selectedOutcomes, activeId);
        var to := FindIndex(selectedOutcomes, overId.value);
        if from.Some? && to.Some? {
          selectedOutcomes := Move(selectedOutcomes, from.value, to.value);
        }
      }
    }

    /** `handleChatSearch`: nothing on a blank query; otherwise score every
        expanded template and show the best positive ones. */
    method HandleChatSearch(chatInput: string)
      requires Valid()
      modifies this
      ensures Valid()
      ensures IsBlank(chatInput) ==> unchanged(this)
      ensures !IsBlank(chatInput) ==>
        && searchResults == SearchResults(Expand(catalog, player1, player2), chatInput, player1, player2)
        && showChatResults
        && selectedOutcomes == old(selectedOutcomes) && initialStake == old(initialStake)
    {
      if IsBlank(chatInput) {
        return;
      }
      var scored := ScorePool(Expand(catalog, player1, player2), Lower(chatInput), player1, player2);
      searchResults := Templates(TopCandidates(scored));
      showChatResults := true;
    }

    /** The stake field's `onChange` with the raw text and its parse (`None`
        when it is not a number): only a positive value or an emptied field is
        stored, the latter as 0. */
    method OnStakeChange(raw: string, parsed: Option<real>)
      requires Valid()
      requires raw == "" ==> parsed.None?
      modifies this
      ensures Valid()
      ensures parsed.Some? && parsed.value > 0.0 ==> initialStake == parsed.value
      ensures !(parsed.Some? && parsed.value > 0.0) && raw == "" ==> initialStake == 0.0
      ensures !(parsed.Some? && parsed.value > 0.0) && raw != "" ==> initialStake == old(initialStake)
      ensures selectedOutcomes == old(selectedOutcomes) && searchResults == old(searchResults)
      ensures showChatResults == old(showChatResults)
    {
      if (parsed.Some? && parsed.value > 0.0) || raw == "" {
        initialStake := if parsed.Some? && parsed.value != 0.0 then parsed.value else 0.0;
      }
    }

    /** The stake field's `onBlur`: anything but a positive number resets the stake to 0. */
    method OnStakeBlur(parsed: Option<real>)
      requires Valid()
      modifies this
      ensures Valid()
      ensures initialStake == if parsed.None? || parsed.value <= 0.0 then 0.0 else old(initialStake)
      ensures selectedOutcomes == old(selectedOutcomes) && searchResults == old(searchResults)
      ensures showChatResults == old(showChatResults)
    {
      if parsed.None? || parsed.value <= 0.0 {
        initialStake := 0.0;
      }
    }

    /** "Place Bet": hands the list over exactly when there are at least three
        outcomes and a positive stake. */
    function Submit(): (r: Option<seq<Outcome>>)
      reads this
      ensures r.Some? <==> |selectedOutcomes| >= Payout.MinSequenceLength && initialStake > 0.0
      ensures r.Some? ==> r.value == selectedOutcomes
    {
      if |selectedOutcomes| < Payout.MinSequenceLength || initialStake <= 0.0 then None
      else Some(selectedOutcomes)
    }

    /** The preview shown next to the stake. */
    function PotentialGains(): (r: real)
      reads this
      ensures |selectedOutcomes| < Payout.MinSequenceLength ==> r == 0.0
      ensures |selectedOutcomes| >= Payout.MinSequenceLength ==>
        r == initialStake * Payout.DifficultyMultiplier(selectedOutcomes) * (1.0 + Payout.LengthBonus(|selectedOutcomes|))
    {
      Payout.PotentialGains(initialStake, selectedOutcomes)
    }
  }
}
