/** Lineup lookup for a match (`getMatchPlayers`). The fixture lineups are
    abstract data: six match-specific lineups and the two fallback squads. */
module Players {
  import opened Wrappers

  /** The two sides of a match, `'player1' | 'player2'` in the source. */
  datatype Side = Player1 | Player2

  /** A squad entry before it is tagged with a side (`Omit<Player, 'team'>`). */
  datatype Member = Member(
    id: string,
    name: string,
    number: int,
    position: string,
    isCaptain: Option<bool>,
    oddsModifier: Option<real>)

  /** A squad entry tagged with its side (`{ ...p, team }`). */
  datatype Player = Player(member: Member, team: Side)

  datatype TeamLineup = TeamLineup(teamName: string, players: seq<Member>)

  datatype MatchLineup = MatchLineup(matchId: string, date: Option<string>, team1: TeamLineup, team2: TeamLineup)

  /** The lookup key, `string | number` in the source. */
  datatype MatchKey = Named(name: string) | Numbered(number: int)

  datatype Fixtures = Fixtures(
    portugalEngland2004: MatchLineup,
    franceGreece2004: MatchLineup,
    swedenNetherlands2004: MatchLineup,
    czechiaDenmark2004: MatchLineup,
    chelseaArsenal2025: MatchLineup,
    manchesterCityLeeds2025: MatchLineup,
    portugalModern: TeamLineup,
    genericOpponent: TeamLineup)

  datatype MatchPlayers = MatchPlayers(team1Players: seq<Player>, team2Players: seq<Player>)

  const KnownMatchIds: seq<string> := [
    "portugal-england-2004", "france-greece-2004", "sweden-netherlands-2004",
    "czechia-denmark-2004", "chelsea-arsenal-2025", "manchester-city-leeds-2025"]

  /** The `k`-th match-specific lineup, in the order of `KnownMatchIds`. */
  function KnownLineup(f: Fixtures, k: nat): MatchLineup
    requires k < |KnownMatchIds|
  {
    [f.portugalEngland2004, f.franceGreece2004, f.swedenNetherlands2004,
     f.czechiaDenmark2004, f.chelseaArsenal2025, f.manchesterCityLeeds2025][k]
  }

  /** `ms.map(p => ({ ...p, team: side }))`. */
  function Tag(ms: seq<Member>, side: Side): (r: seq<Player>)
    ensures |r| == |ms|
    ensures forall i :: 0 <= i < |ms| ==> r[i] == Player(ms[i], side)
    decreases |ms|
  {
    if |ms| == 0 then [] else [Player(ms[0], side)] + Tag(ms[1..], side)
  }

  /** The squad entries underneath tagged players. */
  function Members(ps: seq<Player>): (r: seq<Member>)
    ensures |r| == |ps|
    ensures forall i :: 0 <= i < |ps| ==> r[i] == ps[i].member
    decreases |ps|
  {
    if |ps| == 0 then [] else [ps[0].member] + Members(ps[1..])
  }

  /** The if-chain of strict comparisons: a match-specific lineup, if the key names one. */
  function SpecificLineup(f: Fixtures, matchId: MatchKey): Option<MatchLineup> {
    if matchId == Named("portugal-england-2004") then Some(f.portugalEngland2004)
    else if matchId == Named("france-greece-2004") then Some(f.franceGreece2004)
    else if matchId == Named("sweden-netherlands-2004") then Some(f.swedenNetherlands2004)
    else if matchId == Named("czechia-denmark-2004") then Some(f.czechiaDenmark2004)
    else if matchId == Named("chelsea-arsenal-2025") then Some(f.chelseaArsenal2025)
    else if matchId == Named("manchester-city-leeds-2025") then Some(f.manchesterCityLeeds2025)
    else None
  }

  predicate TaggedAs(ps: seq<Player>, side: Side) {
    forall i :: 0 <= i < |ps| ==> ps[i].team == side
  }

  /** `getMatchPlayers(matchId, team1Name, team2Name)`. The team names are accepted and unused. */
  function GetMatchPlayers(f: Fixtures, matchId: MatchKey, team1Name: Option<string>, team2Name: Option<string>)
    : (r: MatchPlayers)
    ensures TaggedAs(r.team1Players, Player1) && TaggedAs(r.team2Players, Player2)
    ensures forall k :: 0 <= k < |KnownMatchIds| && matchId == Named(KnownMatchIds[k]) ==>
      && Members(r.team1Players) == KnownLineup(f, k).team1.players
      && Members(r.team2Players) == KnownLineup(f, k).team2.players
    ensures !IsKnown(matchId) ==>
      && Members(r.team1Players) == f.portugalModern.players
      && Members(r.team2Players) == f.genericOpponent.players
  {
    match SpecificLineup(f, matchId)
    case Some(lineup) =>
      assert IsKnown(matchId) by {
        assert KnownMatchIds[0] == "portugal-england-2004" && KnownMatchIds[1] == "france-greece-2004";
        assert KnownMatchIds[2] == "sweden-netherlands-2004" && KnownMatchIds[3] == "czechia-denmark-2004";
        assert KnownMatchIds[4] == "chelsea-arsenal-2025" && KnownMatchIds[5] == "manchester-city-leeds-2025";
      }
      MatchPlayers(Tag(lineup.team1.players, Player1), Tag(lineup.team2.players, Player2))
    case None =>
      MatchPlayers(Tag(f.portugalModern.players, Player1), Tag(f.genericOpponent.players, Player2))
  }

  /** The key is one of the six match-specific string ids. */
  predicate IsKnown(matchId: MatchKey) {
    matchId.Named? && matchId.name in KnownMatchIds
  }

  /** A numeric key never equals a string id, so it always gets the fallback squads. */
  lemma NumericIdFallsBack(f: Fixtures, n: int, t1: Option<string>, t2: Option<string>)
    ensures GetMatchPlayers(f, Numbered(n), t1, t2)
         == MatchPlayers(Tag(f.portugalModern.players, Player1), Tag(f.genericOpponent.players, Player2))
  {
  }

  /** The result does not depend on the team names passed in. */
  lemma TeamNamesUnused(f: Fixtures, matchId: MatchKey, a1: Option<string>, a2: Option<string>,
                        b1: Option<string>, b2: Option<string>)
    ensures GetMatchPlayers(f, matchId, a1, a2) == GetMatchPlayers(f, matchId, b1, b2)
  {
  }

  /** Tagging keeps every squad entry, in order, and only adds the side. */
  lemma {:induction false} TagMembers(ms: seq<Member>, side: Side)
    ensures Members(Tag(ms, side)) == ms
    ensures TaggedAs(Tag(ms, side), side)
    decreases |ms|
  {
    if ms != [] {
      TagMembers(ms[1..], side);
      assert Tag(ms, side)[1..] == Tag(ms[1..], side);
    }
  }
}
