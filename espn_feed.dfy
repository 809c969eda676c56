/**
 * The ESPN feed adapter: turning one scoreboard event into a match and the
 * entries of a standings table into standings sorted by position. The feed
 * arrives already decoded from JSON; an optional field is an `Option`, and
 * `parseInt(s, 10)` is a parameter whose `None` stands for `NaN`.
 */
module EspnFeed {
  import opened Wrappers
  import opened StableSort
  import Leagues

  /** `parseInt(s, 10)`; `None` is `NaN`. */
  type ParseInt = string -> Option<int>

  /** `s || fallback`: a missing or empty string gives the fallback. */
  function OrElse(s: Option<string>, fallback: string): (r: string)
    ensures s.Some? && s.value != "" ==> r == s.value
    ensures s.None? || s.value == "" ==> r == fallback
  {
    if s.Some? && s.value != "" then s.value else fallback
  }

  /** `xs?.[k]`: the element at `k`, when the array is there and long enough. */
  function At<T>(xs: Option<seq<T>>, k: nat): (r: Option<T>)
    ensures r.Some? <==> xs.Some? && k < |xs.value|
    ensures r.Some? ==> r.value == xs.value[k]
  {
    if xs.Some? && k < |xs.value| then Some(xs.value[k]) else None
  }

  // ---------------------------------------------------------------------------
  // The scoreboard feed

  datatype FeedTeam = FeedTeam(id: string, displayName: string, abbreviation: string, logo: Option<string>)

  datatype Statistic = Statistic(name: string, displayValue: string)

  datatype Competitor = Competitor(
    team: FeedTeam,
    score: Option<string>,
    form: Option<string>,
    statistics: Option<seq<Statistic>>)

  datatype StatusType = StatusType(state: string, description: string)

  datatype Status = Status(displayClock: Option<string>, statusType: Option<StatusType>)

  datatype Venue = Venue(fullName: string)

  datatype TeamRef = TeamRef(id: string)

  datatype Athlete = Athlete(displayName: string)

  /** A line of the match report; `typeText` is `type.text` and `clock` is
      `clock.displayValue`. */
  datatype Detail = Detail(typeText: string, clock: string, team: Option<TeamRef>, athletesInvolved: Option<seq<Athlete>>)

  datatype Price = Price(value: Option<real>)

  datatype OddsEntry = OddsEntry(homeTeamOdds: Option<Price>, awayTeamOdds: Option<Price>, drawOdds: Option<Price>)

  datatype Competition = Competition(
    id: string,
    status: Option<Status>,
    venue: Option<Venue>,
    attendance: Option<int>,
    competitors: Option<seq<Competitor>>,
    details: Option<seq<Detail>>,
    odds: Option<seq<OddsEntry>>)

  datatype Season = Season(slug: string)

  datatype Event = Event(id: string, date: string, name: string, season: Option<Season>, competitions: Option<seq<Competition>>)

  // ---------------------------------------------------------------------------
  // The match the application shows

  /** A side of a match; `score` is `None` when it parses to `NaN`. */
  datatype Team = Team(id: string, name: string, short: string, logo: Option<string>, score: Option<int>, form: Option<string>)

  datatype MatchEvent = MatchEvent(kind: string, minute: string, teamId: Option<string>, player: Option<string>)

  datatype MatchOdds = MatchOdds(homeOdds: Option<real>, awayOdds: Option<real>, drawOdds: Option<real>)

  datatype MatchStats = MatchStats(home: map<string, string>, away: map<string, string>)

  datatype Match = Match(
    id: string,
    league: string,
    leagueName: string,
    date: string,
    status: string,
    statusDetail: Option<string>,
    minute: Option<string>,
    home: Team,
    away: Team,
    venue: Option<string>,
    attendance: Option<int>,
    stats: MatchStats,
    events: Option<seq<MatchEvent>>,
    odds: Option<MatchOdds>)

  // ---------------------------------------------------------------------------
  // Per-team statistics

  /** The dictionary `forEach` fills: each statistic in turn sets the entry
      for its name. */
  function Dictionary(stats: seq<Statistic>): map<string, string> {
    if stats == [] then map[]
    else
      var last := stats[|stats| - 1];
      Dictionary(stats[..|stats| - 1])[last.name := last.displayValue]
  }

  /** The dictionary has exactly the names of the statistics, and each name
      holds the value of the last statistic with that name. */
  lemma {:induction false} DictionaryLastWins(stats: seq<Statistic>)
    ensures Dictionary(stats).Keys == set i | 0 <= i < |stats| :: stats[i].name
    ensures forall i :: 0 <= i < |stats| && (forall j :: i < j < |stats| ==> stats[j].name != stats[i].name) ==>
              Dictionary(stats)[stats[i].name] == stats[i].displayValue
    decreases |stats|
  {
    if stats != [] {
      var n := |stats| - 1;
      var front := stats[..n];
      DictionaryLastWins(front);
      assert forall i :: 0 <= i < n ==> front[i] == stats[i];
      assert (set i | 0 <= i < |stats| :: stats[i].name) == (set i | 0 <= i < n :: front[i].name) + {stats[n].name};
    }
  }

  /** The statistics of a competitor, or an empty dictionary without any. */
  function StatsOf(c: Competitor): map<string, string> {
    if c.statistics.Some? then Dictionary(c.statistics.value) else map[]
  }

  /** `c.statistics?.forEach(s => { stats[s.name] = s.displayValue; })`. */
  method CollectStats(c: Competitor) returns (stats: map<string, string>)
    ensures stats == StatsOf(c)
  {
    stats := map[];
    if c.statistics.Some? {
      var all := c.statistics.value;
      for i := 0 to |all|
        invariant stats == Dictionary(all[..i])
      {
        assert all[..i + 1][..i] == all[..i];
        stats := stats[all[i].name := all[i].displayValue];
      }
      assert all[..|all|] == all;
    }
  }

  // ---------------------------------------------------------------------------
  // parseMatch

  function TeamOf(c: Competitor, parseInt: ParseInt): Team {
    Team(c.team.id, c.team.displayName, c.team.abbreviation, c.team.logo, parseInt(OrElse(c.score, "0")), c.form)
  }

  function EventOf(d: Detail): MatchEvent {
    var first := At(d.athletesInvolved, 0);
    MatchEvent(
      d.typeText, d.clock,
      if d.team.Some? then Some(d.team.value.id) else None,
      if first.Some? then Some(first.value.displayName) else None)
  }

  /** `details.map(...)`: one event per line of the report. */
  function EventsOf(details: seq<Detail>): seq<MatchEvent> {
    seq(|details|, i requires 0 <= i < |details| => EventOf(details[i]))
  }

  /** `price?.value`. */
  function PriceOf(p: Option<Price>): Option<real> {
    if p.Some? then p.value.value else None
  }

  function OddsOf(o: OddsEntry): MatchOdds {
    MatchOdds(PriceOf(o.homeTeamOdds), PriceOf(o.awayTeamOdds), PriceOf(o.drawOdds))
  }

  /** `event.season?.slug`. */
  function Slug(event: Event): Option<string> {
    if event.season.Some? then Some(event.season.value.slug) else None
  }

  /** `comp.status?.type`. */
  function StatusTypeOf(comp: Competition): Option<StatusType> {
    if comp.status.Some? then comp.status.value.statusType else None
  }

  /** The match record of an event whose first competition has two
      competitors, given the two statistics dictionaries. */
  function Assemble(event: Event, comp: Competition, home: Competitor, away: Competitor,
                    homeStats: map<string, string>, awayStats: map<string, string>, parseInt: ParseInt): Match
  {
    var statusType := StatusTypeOf(comp);
    var oddsData := At(comp.odds, 0);
    Match(
      event.id,
      OrElse(Slug(event), "unknown"),
      Leagues.GetLeagueName(OrElse(Slug(event), "")),
      event.date,
      OrElse(if statusType.Some? then Some(statusType.value.state) else None, "pre"),
      if statusType.Some? then Some(statusType.value.description) else None,
      if comp.status.Some? then comp.status.value.displayClock else None,
      TeamOf(home, parseInt),
      TeamOf(away, parseInt),
      if comp.venue.Some? then Some(comp.venue.value.fullName) else None,
      comp.attendance,
      MatchStats(homeStats, awayStats),
      if comp.details.Some? then Some(EventsOf(comp.details.value)) else None,
      if oddsData.Some? then Some(OddsOf(oddsData.value)) else None)
  }

  /** What `parseMatch` returns: `None` for `null`. */
  function MatchOf(event: Event, parseInt: ParseInt): Option<Match> {
    var comp := At(event.competitions, 0);
    if comp.None? then None
    else
      var home := At(comp.value.competitors, 0);
      var away := At(comp.value.competitors, 1);
      if home.None? || away.None? then None
      else Some(Assemble(event, comp.value, home.value, away.value, StatsOf(home.value), StatsOf(away.value), parseInt))
  }

  /** `parseMatch`: the two statistics dictionaries are filled in place, the
      rest of the record is built from the event. */
  method ParseMatch(event: Event, parseInt: ParseInt) returns (r: Option<Match>)
    ensures r == MatchOf(event, parseInt)
  {
    var comp := At(event.competitions, 0);
    if comp.None? {
      return None;
    }
    var home := At(comp.value.competitors, 0);
    var away := At(comp.value.competitors, 1);
    if home.None? || away.None? {
      return None;
    }
    var homeStats := CollectStats(home.value);
    var awayStats := CollectStats(away.value);
    r := Some(Assemble(event, comp.value, home.value, away.value, homeStats, awayStats, parseInt));
  }

  /** An event gives a match exactly when it has a first competition with
      at least two competitors; the first is the home side and the second
      the away side. */
  lemma ParseMatchSides(event: Event, parseInt: ParseInt)
    ensures MatchOf(event, parseInt).Some? <==>
              event.competitions.Some? && |event.competitions.value| > 0
              && event.competitions.value[0].competitors.Some? && |event.competitions.value[0].competitors.value| >= 2
    ensures MatchOf(event, parseInt).Some? ==>
              var competitors := event.competitions.value[0].competitors.value;
              var m := MatchOf(event, parseInt).value;
              && m.id == event.id && m.date == event.date
              && m.home == TeamOf(competitors[0], parseInt) && m.away == TeamOf(competitors[1], parseInt)
              && m.stats == MatchStats(StatsOf(competitors[0]), StatsOf(competitors[1]))
  {
  }

  /** The fallbacks: a missing or empty slug gives the league `"unknown"`
      and the name of the empty code, which is empty; a missing or empty
      state gives `"pre"`; a missing or empty score is parsed as `"0"`. */
  lemma ParseMatchDefaults(event: Event, parseInt: ParseInt)
    requires MatchOf(event, parseInt).Some?
    ensures var m := MatchOf(event, parseInt).value;
            && (Slug(event).None? || Slug(event).value == "" ==> m.league == "unknown" && m.leagueName == "")
            && (Slug(event).Some? && Slug(event).value != "" ==>
                  m.league == Slug(event).value && m.leagueName == Leagues.GetLeagueName(Slug(event).value))
    ensures var m := MatchOf(event, parseInt).value;
            var statusType := StatusTypeOf(event.competitions.value[0]);
            m.status == if statusType.None? || statusType.value.state == "" then "pre" else statusType.value.state
    ensures var m := MatchOf(event, parseInt).value;
            var competitors := event.competitions.value[0].competitors.value;
            && (competitors[0].score.None? || competitors[0].score.value == "" ==> m.home.score == parseInt("0"))
            && (competitors[1].score.None? || competitors[1].score.value == "" ==> m.away.score == parseInt("0"))
  {
    Leagues.EmptyCodeUnknown();
  }

  /** The odds are there exactly when the competition has a first odds
      entry, and then its three prices are copied, each possibly missing. */
  lemma ParseMatchOdds(event: Event, parseInt: ParseInt)
    requires MatchOf(event, parseInt).Some?
    ensures var comp := event.competitions.value[0];
            var m := MatchOf(event, parseInt).value;
            && (m.odds.Some? <==> comp.odds.Some? && |comp.odds.value| > 0)
            && (m.odds.Some? ==>
                  var o := comp.odds.value[0];
                  && (m.odds.value.homeOdds.Some? <==> o.homeTeamOdds.Some? && o.homeTeamOdds.value.value.Some?)
                  && (m.odds.value.homeOdds.Some? ==> m.odds.value.homeOdds == o.homeTeamOdds.value.value)
                  && (m.odds.value.awayOdds.Some? <==> o.awayTeamOdds.Some? && o.awayTeamOdds.value.value.Some?)
                  && (m.odds.value.awayOdds.Some? ==> m.odds.value.awayOdds == o.awayTeamOdds.value.value)
                  && (m.odds.value.drawOdds.Some? <==> o.drawOdds.Some? && o.drawOdds.value.value.Some?)
                  && (m.odds.value.drawOdds.Some? ==> m.odds.value.drawOdds == o.drawOdds.value.value))
  {
  }

  /** The events are there exactly when the report is, one per line in the
      same order; each names the first involved athlete, if any. */
  lemma ParseMatchEvents(event: Event, parseInt: ParseInt)
    requires MatchOf(event, parseInt).Some?
    ensures var comp := event.competitions.value[0];
            var m := MatchOf(event, parseInt).value;
            && (m.events.Some? <==> comp.details.Some?)
            && (m.events.Some? ==>
                  var details := comp.details.value;
                  && |m.events.value| == |details|
                  && forall i :: 0 <= i < |details| ==>
                       && m.events.value[i].kind == details[i].typeText
                       && m.events.value[i].minute == details[i].clock
                       && (m.events.value[i].teamId.Some? <==> details[i].team.Some?)
                       && (m.events.value[i].player.Some? <==>
                             details[i].athletesInvolved.Some? && |details[i].athletesInvolved.value| > 0)
                       && (m.events.value[i].player.Some? ==>
                             m.events.value[i].player.value == details[i].athletesInvolved.value[0].displayName))
  {
  }

  // ---------------------------------------------------------------------------
  // The standings feed

  datatype Logo = Logo(href: Option<string>)

  datatype EntryTeam = EntryTeam(id: Option<string>, displayName: Option<string>, logos: Option<seq<Logo>>, form: Option<string>)

  datatype EntryStat = EntryStat(name: string, value: Option<string>)

  datatype StandingEntry = StandingEntry(team: Option<EntryTeam>, stats: Option<seq<EntryStat>>)

  datatype StandingsTable = StandingsTable(entries: Option<seq<StandingEntry>>)

  datatype StandingsGroup = StandingsGroup(standings: Option<StandingsTable>)

  datatype StandingsData = StandingsData(children: Option<seq<StandingsGroup>>)

  datatype StandingTeam = StandingTeam(id: string, name: string, logo: Option<string>)

  /** A row of the table; a count is `None` when it parses to `NaN`. */
  datatype Standing = Standing(
    position: int,
    team: StandingTeam,
    played: Option<int>,
    won: Option<int>,
    drawn: Option<int>,
    lost: Option<int>,
    goalsFor: Option<int>,
    goalsAgainst: Option<int>,
    goalDifference: Option<int>,
    points: Option<int>,
    form: Option<string>)

  /** `data.children?.[0]?.standings?.entries || []`. */
  function EntriesOf(data: StandingsData): seq<StandingEntry> {
    var group := At(data.children, 0);
    if group.Some? && group.value.standings.Some? && group.value.standings.value.entries.Some?
    then group.value.standings.value.entries.value
    else []
  }

  /** `stats.find(s => s.name === name)`: the first statistic with the name. */
  function FindStat(stats: seq<EntryStat>, name: string): Option<EntryStat> {
    if stats == [] then None
    else if stats[0].name == name then Some(stats[0])
    else FindStat(stats[1..], name)
  }

  /** The search finds the first statistic with the name, and nothing when
      none has it. */
  lemma {:induction false} FindStatFirst(stats: seq<EntryStat>, name: string)
    ensures FindStat(stats, name).None? <==> forall i :: 0 <= i < |stats| ==> stats[i].name != name
    ensures FindStat(stats, name).Some? ==>
              exists i :: 0 <= i < |stats| && FindStat(stats, name).value == stats[i]
                          && stats[i].name == name && forall j :: 0 <= j < i ==> stats[j].name != name
    decreases |stats|
  {
    if stats != [] && stats[0].name != name {
      FindStatFirst(stats[1..], name);
      assert forall i :: 0 <= i < |stats| - 1 ==> stats[1..][i] == stats[i + 1];
      if FindStat(stats, name).Some? {
        var i :| 0 <= i < |stats[1..]| && FindStat(stats[1..], name).value == stats[1..][i]
                 && stats[1..][i].name == name && forall j :: 0 <= j < i ==> stats[1..][j].name != name;
        assert stats[i + 1] == stats[1..][i];
        assert forall j :: 0 <= j < i + 1 ==> stats[j].name != name by {
          forall j | 0 <= j < i + 1
            ensures stats[j].name != name
          {
            if j > 0 {
              assert stats[j] == stats[1..][j - 1];
            }
          }
        }
      }
    } else if stats != [] {
      assert FindStat(stats, name).value == stats[0];
    }
  }

  /** `getStatValue(name)`: the first statistic's value parsed, `"0"` when
      the statistic or its value is missing or empty. */
  function StatValue(stats: seq<EntryStat>, name: string, parseInt: ParseInt): Option<int> {
    var found := FindStat(stats, name);
    parseInt(OrElse(if found.Some? then found.value.value else None, "0"))
  }

  /** `getStatValue('rank') || index + 1`: `NaN` and `0` are falsy. */
  function Position(stats: seq<EntryStat>, index: nat, parseInt: ParseInt): (p: int)
    ensures p != 0
  {
    var rank := StatValue(stats, "rank", parseInt);
    if rank.Some? && rank.value != 0 then rank.value else index + 1
  }

  /** The row pushed for the entry at `index`. */
  function ToStanding(entry: StandingEntry, index: nat, parseInt: ParseInt): Standing {
    var stats := if entry.stats.Some? then entry.stats.value else [];
    var team := entry.team;
    var firstLogo := if team.Some? then At(team.value.logos, 0) else None;
    Standing(
      Position(stats, index, parseInt),
      StandingTeam(
        OrElse(if team.Some? then team.value.id else None, ""),
        OrElse(if team.Some? then team.value.displayName else None, ""),
        if firstLogo.Some? then firstLogo.value.href else None),
      StatValue(stats, "gamesPlayed", parseInt),
      StatValue(stats, "wins", parseInt),
      StatValue(stats, "ties", parseInt),
      StatValue(stats, "losses", parseInt),
      StatValue(stats, "pointsFor", parseInt),
      StatValue(stats, "pointsAgainst", parseInt),
      StatValue(stats, "pointDifferential", parseInt),
      StatValue(stats, "points", parseInt),
      if team.Some? then team.value.form else None)
  }

  /** The rows in entry order, before sorting. */
  function Rows(entries: seq<StandingEntry>, parseInt: ParseInt): seq<Standing> {
    seq(|entries|, i requires 0 <= i < |entries| => ToStanding(entries[i], i, parseInt))
  }

  /** `(a, b) => a.position - b.position` orders by this key, ascending. */
  function PositionKey(s: Standing): real {
    s.position as real
  }

  /** The rows `getLeagueStandings` returns, sorted by position. */
  function Standings(data: StandingsData, parseInt: ParseInt): seq<Standing> {
    Sort(Rows(EntriesOf(data), parseInt), PositionKey)
  }

  /** The loop of `getLeagueStandings` pushes one row per entry; the rows are
      then sorted in place by position. */
  method LeagueStandings(data: StandingsData, parseInt: ParseInt) returns (standings: seq<Standing>)
    ensures standings == Standings(data, parseInt)
  {
    var entries := EntriesOf(data);
    var pushed: seq<Standing> := [];
    for i := 0 to |entries|
      invariant |pushed| == i
      invariant forall k :: 0 <= k < i ==> pushed[k] == ToStanding(entries[k], k, parseInt)
    {
      pushed := pushed + [ToStanding(entries[i], i, parseInt)];
    }
    assert pushed == Rows(entries, parseInt);
    var rows := new Standing[|pushed|](k requires 0 <= k < |pushed| => pushed[k]);
    assert rows[..] == pushed;
    SortInPlace(rows, PositionKey);
    standings := rows[..];
  }

  /** Each entry gives one row: its position is the parsed rank unless that
      is `NaN` or zero, and then the entry's place in the feed, counted from
      one; every count is its own statistic's parsed value; the team's id
      and name fall back to `""`, its logo is the first logo's address and
      its form is the team's form. */
  lemma RowOfEntry(entries: seq<StandingEntry>, parseInt: ParseInt, i: nat)
    requires i < |entries|
    ensures var stats := if entries[i].stats.Some? then entries[i].stats.value else [];
            var rank := StatValue(stats, "rank", parseInt);
            var row := Rows(entries, parseInt)[i];
            && (rank.Some? && rank.value != 0 ==> row.position == rank.value)
            && (rank.None? || rank.value == 0 ==> row.position == i + 1)
            && row.played == StatValue(stats, "gamesPlayed", parseInt)
            && row.won == StatValue(stats, "wins", parseInt)
            && row.drawn == StatValue(stats, "ties", parseInt)
            && row.lost == StatValue(stats, "losses", parseInt)
            && row.goalsFor == StatValue(stats, "pointsFor", parseInt)
            && row.goalsAgainst == StatValue(stats, "pointsAgainst", parseInt)
            && row.goalDifference == StatValue(stats, "pointDifferential", parseInt)
            && row.points == StatValue(stats, "points", parseInt)
    ensures var team := entries[i].team;
            var row := Rows(entries, parseInt)[i];
            && (team.Some? && team.value.id.Some? && team.value.id.value != "" ==> row.team.id == team.value.id.value)
            && (team.None? || team.value.id.None? || team.value.id.value == "" ==> row.team.id == "")
            && (team.Some? && team.value.displayName.Some? && team.value.displayName.value != ""
                ==> row.team.name == team.value.displayName.value)
            && (team.None? || team.value.displayName.None? || team.value.displayName.value == "" ==> row.team.name == "")
            && (team.Some? && team.value.logos.Some? && |team.value.logos.value| > 0
                ==> row.team.logo == team.value.logos.value[0].href)
            && (team.None? || team.value.logos.None? || |team.value.logos.value| == 0 ==> row.team.logo.None?)
            && row.form == (if team.Some? then team.value.form else None)
  {
  }

  /** The standings are the rows of the entries, rearranged so that
      positions never decrease; rows sharing a position keep feed order. */
  lemma StandingsSorted(data: StandingsData, parseInt: ParseInt)
    ensures var rows := Rows(EntriesOf(data), parseInt);
            var s := Standings(data, parseInt);
            && |s| == |rows|
            && multiset(s) == multiset(rows)
            && (forall i, j :: 0 <= i < j < |s| ==> s[i].position <= s[j].position)
            && forall k: real :: WithKey(s, PositionKey, k) == WithKey(rows, PositionKey, k)
  {
    var rows := Rows(EntriesOf(data), parseInt);
    SortIsPermutation(rows, PositionKey);
    SortIsSorted(rows, PositionKey);
    forall k: real
      ensures WithKey(Standings(data, parseInt), PositionKey, k) == WithKey(rows, PositionKey, k)
    {
      SortIsStable(rows, PositionKey, k);
    }
  }
}
