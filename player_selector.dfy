/** The player picker: a team tab, a free-text search, and the grouping of
    the remaining players by position. The two squads it shows are abstract
    data handed to the constructor. */
module PlayerSelector {
  import opened Wrappers
  import opened Text
  import opened Players

  /** The team tab, `'player1' | 'player2' | 'all'`. */
  datatype Tab = All | Only(side: Side)

  /** `teamFilter || (bothTeams ? 'all' : 'player1')`. */
  function InitialTab(bothTeams: bool, teamFilter: Option<Side>): (r: Tab)
    ensures teamFilter.Some? ==> r == Only(teamFilter.value)
    ensures teamFilter.None? && bothTeams ==> r == All
    ensures teamFilter.None? && !bothTeams ==> r == Only(Player1)
  {
    match teamFilter
    case Some(side) => Only(side)
    case None => if bothTeams then All else Only(Player1)
  }

  /** `players.filter(p => p.team === side)`. */
  function KeepSide(ps: seq<Player>, side: Side): (r: seq<Player>)
    ensures forall p :: p in r <==> p in ps && p.team == side
    ensures |r| <= |ps|
    decreases |ps|
  {
    if |ps| == 0 then []
    else if ps[0].team == side then [ps[0]] + KeepSide(ps[1..], side)
    else KeepSide(ps[1..], side)
  }

  /** The filter works piecewise, so the kept players keep their order and their repeats. */
  lemma {:induction false} KeepSideAppend(s: seq<Player>, t: seq<Player>, side: Side)
    ensures KeepSide(s + t, side) == KeepSide(s, side) + KeepSide(t, side)
    decreases |s|
  {
    if s == [] {
      assert s + t == t;
    } else {
      assert (s + t)[0] == s[0];
      assert (s + t)[1..] == s[1..] + t;
      KeepSideAppend(s[1..], t, side);
    }
  }

  /** The team step: `teamFilter` wins over the tab; the `all` tab keeps everyone. */
  function FilterByTeam(ps: seq<Player>, teamFilter: Option<Side>, tab: Tab): (r: seq<Player>)
    ensures teamFilter.Some? ==> r == KeepSide(ps, teamFilter.value)
    ensures teamFilter.None? && tab == All ==> r == ps
    ensures teamFilter.None? && tab.Only? ==> r == KeepSide(ps, tab.side)
  {
    if teamFilter.Some? then KeepSide(ps, teamFilter.value)
    else if tab != All then KeepSide(ps, tab.side)
    else ps
  }

  /** The search test on one player: name or position contain the query (both
      lower-cased), or the shirt number's decimal form contains the raw query. */
  predicate MatchesQuery(p: Player, query: string) {
    || Contains(Lower(p.member.name), Lower(query))
    || Contains(Lower(p.member.position), Lower(query))
    || Contains(IntToString(p.member.number), query)
  }

  /** `players.filter(p => MatchesQuery(p, query))`. */
  function Search(ps: seq<Player>, query: string): (r: seq<Player>)
    ensures forall p :: p in r <==> p in ps && MatchesQuery(p, query)
    ensures |r| <= |ps|
    decreases |ps|
  {
    if |ps| == 0 then []
    else if MatchesQuery(ps[0], query) then [ps[0]] + Search(ps[1..], query)
    else Search(ps[1..], query)
  }

  /** The search works piecewise, so the matching players keep their order and their repeats. */
  lemma {:induction false} SearchAppend(s: seq<Player>, t: seq<Player>, query: string)
    ensures Search(s + t, query) == Search(s, query) + Search(t, query)
    decreases |s|
  {
    if s == [] {
      assert s + t == t;
    } else {
      assert (s + t)[0] == s[0];
      assert (s + t)[1..] == s[1..] + t;
      SearchAppend(s[1..], t, query);
    }
  }

  /** The empty pattern is contained in every string. */
  lemma ContainsEmpty(s: string)
    ensures Contains(s, "")
  {
    assert OccursAt(s, "", 0);
  }

  /** An empty query keeps every player, in order. */
  lemma {:induction false} EmptyQueryKeepsAll(ps: seq<Player>)
    ensures Search(ps, "") == ps
    decreases |ps|
  {
    if ps != [] {
      ContainsEmpty(Lower(ps[0].member.name));
      assert Lower("") == "";
      EmptyQueryKeepsAll(ps[1..]);
      assert [ps[0]] + ps[1..] == ps;
    }
  }

  /** `players.filter(p => p.position === position)`: one bucket of `groupByPosition`. */
  function KeepPosition(ps: seq<Player>, position: string): (r: seq<Player>)
    ensures forall p :: p in r <==> p in ps && p.member.position == position
    decreases |ps|
  {
    if |ps| == 0 then []
    else if ps[0].member.position == position then [ps[0]] + KeepPosition(ps[1..], position)
    else KeepPosition(ps[1..], position)
  }

  predicate IsGroupedPosition(position: string) {
    position == "GK" || position == "DEF" || position == "MID" || position == "FWD"
  }

  function CountGrouped(ps: seq<Player>): nat
    decreases |ps|
  {
    if |ps| == 0 then 0 else (if IsGroupedPosition(ps[0].member.position) then 1 else 0) + CountGrouped(ps[1..])
  }

  /** The four buckets together hold every player with one of the four positions, once. */
  lemma {:induction false} BucketSizes(ps: seq<Player>)
    ensures |KeepPosition(ps, "GK")| + |KeepPosition(ps, "DEF")| + |KeepPosition(ps, "MID")|
          + |KeepPosition(ps, "FWD")| == CountGrouped(ps)
    decreases |ps|
  {
    if ps != [] {
      BucketSizes(ps[1..]);
    }
  }

  /** The four position buckets of `groupByPosition`. */
  datatype Groups = Groups(gk: seq<Player>, def: seq<Player>, mid: seq<Player>, fwd: seq<Player>)

  /** `groupByPosition`: one pass that pushes each player onto its position's
      bucket; a player with any other of the squads' positions goes nowhere.
      A position naming a member of `Object.prototype`, such as "toString",
      would make the source's `push` throw; squads never hold one. */
  method GroupByPosition(players: seq<Player>) returns (g: Groups)
    ensures g.gk == KeepPosition(players, "GK")
    ensures g.def == KeepPosition(players, "DEF")
    ensures g.mid == KeepPosition(players, "MID")
    ensures g.fwd == KeepPosition(players, "FWD")
  {
    var gk, def, mid, fwd := [], [], [], [];
    for i := 0 to |players|
      invariant gk == KeepPosition(players[..i], "GK")
      invariant def == KeepPosition(players[..i], "DEF")
      invariant mid == KeepPosition(players[..i], "MID")
      invariant fwd == KeepPosition(players[..i], "FWD")
    {
      var p := players[i];
      KeepPositionSnoc(players[..i], p, "GK");
      KeepPositionSnoc(players[..i], p, "DEF");
      KeepPositionSnoc(players[..i], p, "MID");
      KeepPositionSnoc(players[..i], p, "FWD");
      assert players[..i + 1] == players[..i] + [p];
      if p.member.position == "GK" {
        gk := gk + [p];
      } else if p.member.position == "DEF" {
        def := def + [p];
      } else if p.member.position == "MID" {
        mid := mid + [p];
      } else if p.member.position == "FWD" {
        fwd := fwd + [p];
      }
    }
    assert players[..|players|] == players;
    g := Groups(gk, def, mid, fwd);
  }

  /** Filtering one more player at the end. */
  lemma {:induction false} KeepPositionSnoc(ps: seq<Player>, p: Player, position: string)
    ensures KeepPosition(ps + [p], position)
         == KeepPosition(ps, position) + (if p.member.position == position then [p] else [])
    decreases |ps|
  {
    if ps == [] {
      assert [] + [p] == [p];
      assert [p][1..] == [];
    } else {
      assert (ps + [p])[1..] == ps[1..] + [p];
      KeepPositionSnoc(ps[1..], p, position);
    }
  }

  class Selector {
    const team1Squad: seq<Member>
    const team2Squad: seq<Member>
    const bothTeams: bool
    const teamFilter: Option<Side>
    var searchQuery: string
    var selectedTeam: Tab
    /** Players handed to `onSelectPlayer`, in order. */
    var selected: seq<Player>
    /** Whether `onClose` has been requested. */
    var closeRequested: bool

    constructor (team1Squad: seq<Member>, team2Squad: seq<Member>, bothTeams: bool, teamFilter: Option<Side>)
      ensures this.team1Squad == team1Squad && this.team2Squad == team2Squad
      ensures this.bothTeams == bothTeams && this.teamFilter == teamFilter
      ensures searchQuery == "" && selected == [] && !closeRequested
      ensures selectedTeam == InitialTab(bothTeams, teamFilter)
    {
      this.team1Squad := team1Squad;
      this.team2Squad := team2Squad;
      this.bothTeams := bothTeams;
      this.teamFilter := teamFilter;
      searchQuery := "";
      selectedTeam := InitialTab(bothTeams, teamFilter);
      selected := [];
      closeRequested := false;
    }

    /** `[...team1Players, ...team2Players]`, each squad tagged with its side. */
    function AllPlayers(): (r: seq<Player>)
      reads this
      ensures |r| == |team1Squad| + |team2Squad|
      ensures forall i :: 0 <= i < |team1Squad| ==> r[i] == Player(team1Squad[i], Player1)
      ensures forall i :: 0 <= i < |team2Squad| ==> r[|team1Squad| + i] == Player(team2Squad[i], Player2)
    {
      Tag(team1Squad, Player1) + Tag(team2Squad, Player2)
    }

    /** The list shown: team filtering first, then the search, each keeping
        the order of `AllPlayers` (see `KeepSideAppend` and `SearchAppend`). */
    function FilteredPlayers(): (r: seq<Player>)
      reads this
      ensures r == Search(FilterByTeam(AllPlayers(), teamFilter, selectedTeam), searchQuery)
      ensures forall p :: p in r <==>
        p in FilterByTeam(AllPlayers(), teamFilter, selectedTeam) && MatchesQuery(p, searchQuery)
    {
      Search(FilterByTeam(AllPlayers(), teamFilter, selectedTeam), searchQuery)
    }

    method SetSearchQuery(query: string)
      modifies this
      ensures searchQuery == query
      ensures selectedTeam == old(selectedTeam) && selected == old(selected)
      ensures closeRequested == old(closeRequested)
    {
      searchQuery := query;
    }

    method SelectTab(tab: Tab)
      modifies this
      ensures selectedTeam == tab
      ensures searchQuery == old(searchQuery) && selected == old(selected)
      ensures closeRequested == old(closeRequested)
    {
      selectedTeam := tab;
    }

    /** `handleSelectPlayer`: hand the player to the callback, clear the search, close. */
    method SelectPlayer(p: Player)
      modifies this
      ensures selected == old(selected) + [p]
      ensures searchQuery == "" && closeRequested
      ensures selectedTeam == old(selectedTeam)
    {
      selected := selected + [p];
      searchQuery := "";
      closeRequested := true;
    }

    /** The grouped list the picker renders. */
    method Grouped() returns (g: Groups)
      ensures g.gk == KeepPosition(FilteredPlayers(), "GK")
      ensures g.def == KeepPosition(FilteredPlayers(), "DEF")
      ensures g.mid == KeepPosition(FilteredPlayers(), "MID")
      ensures g.fwd == KeepPosition(FilteredPlayers(), "FWD")
    {
      g := GroupByPosition(FilteredPlayers());
    }
  }
}
