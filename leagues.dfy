/**
 * The league table: every competition the application knows, keyed by the
 * feed's league code, its grouping by continent, the featured codes, and
 * the name and flag lookups with their fallbacks.
 */
module Leagues {
  import opened Wrappers

  /** The six values the `continent` field of a league can take. */
  datatype ContinentId = Europe | Americas | Asia | Africa | Oceania | International

  /** The string a continent is written as, in leagues and in group ids. */
  function IdOf(c: ContinentId): string {
    match c
    case Europe => "europe"
    case Americas => "americas"
    case Asia => "asia"
    case Africa => "africa"
    case Oceania => "oceania"
    case International => "international"
  }

  lemma IdOfInjective(a: ContinentId, b: ContinentId)
    ensures IdOf(a) == IdOf(b) <==> a == b
  {
    if a != b {
      assert IdOf(a)[0] != IdOf(b)[0] || |IdOf(a)| != |IdOf(b)|;
    }
  }

  /** A competition; international ones have no country. */
  datatype League = League(code: string, name: string, country: Option<string>, continent: ContinentId, flag: Option<string>)

  /** One `key: value` line of the table. */
  datatype Entry = Entry(key: string, league: League)

  /** The key of each line is non-empty and repeats the line's `code`, and
      the name and the flag are present and non-empty. */
  predicate WellFormedEntry(e: Entry) {
    && e.key == e.league.code && e.key != ""
    && e.league.name != "" && e.league.flag.Some? && e.league.flag.value != ""
  }

  predicate AllWellFormed(table: seq<Entry>) {
    forall i :: 0 <= i < |table| ==> WellFormedEntry(table[i])
  }

  lemma WellFormedAppend(a: seq<Entry>, b: seq<Entry>)
    requires AllWellFormed(a) && AllWellFormed(b)
    ensures AllWellFormed(a + b)
  {
    forall i | 0 <= i < |a + b|
      ensures WellFormedEntry((a + b)[i])
    {
      if i >= |a| {
        assert (a + b)[i] == b[i - |a|];
      }
    }
  }

  /** The lines for Europe. */
  const EUROPE_LEAGUES: seq<Entry> := [
    Entry("eng.1", League("eng.1", "Premier League", Some("England"), Europe, Some("\U{1F3F4}\U{E0067}\U{E0062}\U{E0065}\U{E006E}\U{E0067}\U{E007F}"))),
    Entry("eng.2", League("eng.2", "Championship", Some("England"), Europe, Some("\U{1F3F4}\U{E0067}\U{E0062}\U{E0065}\U{E006E}\U{E0067}\U{E007F}"))),
    Entry("esp.1", League("esp.1", "La Liga", Some("Spain"), Europe, Some("\U{1F1EA}\U{1F1F8}"))),
    Entry("esp.2", League("esp.2", "Segunda Divisi\U{F3}n", Some("Spain"), Europe, Some("\U{1F1EA}\U{1F1F8}"))),
    Entry("ger.1", League("ger.1", "Bundesliga", Some("Germany"), Europe, Some("\U{1F1E9}\U{1F1EA}"))),
    Entry("ger.2", League("ger.2", "2. Bundesliga", Some("Germany"), Europe, Some("\U{1F1E9}\U{1F1EA}"))),
    Entry("ita.1", League("ita.1", "Serie A", Some("Italy"), Europe, Some("\U{1F1EE}\U{1F1F9}"))),
    Entry("ita.2", League("ita.2", "Serie B", Some("Italy"), Europe, Some("\U{1F1EE}\U{1F1F9}"))),
    Entry("fra.1", League("fra.1", "Ligue 1", Some("France"), Europe, Some("\U{1F1EB}\U{1F1F7}"))),
    Entry("fra.2", League("fra.2", "Ligue 2", Some("France"), Europe, Some("\U{1F1EB}\U{1F1F7}"))),
    Entry("ned.1", League("ned.1", "Eredivisie", Some("Netherlands"), Europe, Some("\U{1F1F3}\U{1F1F1}"))),
    Entry("por.1", League("por.1", "Primeira Liga", Some("Portugal"), Europe, Some("\U{1F1F5}\U{1F1F9}"))),
    Entry("tur.1", League("tur.1", "S\U{FC}per Lig", Some("Turkey"), Europe, Some("\U{1F1F9}\U{1F1F7}"))),
    Entry("tur.2", League("tur.2", "1. Lig", Some("Turkey"), Europe, Some("\U{1F1F9}\U{1F1F7}"))),
    Entry("bel.1", League("bel.1", "Belgian Pro League", Some("Belgium"), Europe, Some("\U{1F1E7}\U{1F1EA}"))),
    Entry("sco.1", League("sco.1", "Scottish Premiership", Some("Scotland"), Europe, Some("\U{1F3F4}\U{E0067}\U{E0062}\U{E0073}\U{E0063}\U{E0074}\U{E007F}"))),
    Entry("rus.1", League("rus.1", "Russian Premier League", Some("Russia"), Europe, Some("\U{1F1F7}\U{1F1FA}"))),
    Entry("ukr.1", League("ukr.1", "Ukrainian Premier League", Some("Ukraine"), Europe, Some("\U{1F1FA}\U{1F1E6}"))),
    Entry("gre.1", League("gre.1", "Super League Greece", Some("Greece"), Europe, Some("\U{1F1EC}\U{1F1F7}"))),
    Entry("sui.1", League("sui.1", "Swiss Super League", Some("Switzerland"), Europe, Some("\U{1F1E8}\U{1F1ED}"))),
    Entry("aut.1", League("aut.1", "Austrian Bundesliga", Some("Austria"), Europe, Some("\U{1F1E6}\U{1F1F9}"))),
    Entry("den.1", League("den.1", "Danish Superliga", Some("Denmark"), Europe, Some("\U{1F1E9}\U{1F1F0}"))),
    Entry("nor.1", League("nor.1", "Eliteserien", Some("Norway"), Europe, Some("\U{1F1F3}\U{1F1F4}"))),
    Entry("swe.1", League("swe.1", "Allsvenskan", Some("Sweden"), Europe, Some("\U{1F1F8}\U{1F1EA}"))),
    Entry("pol.1", League("pol.1", "Ekstraklasa", Some("Poland"), Europe, Some("\U{1F1F5}\U{1F1F1}"))),
    Entry("cze.1", League("cze.1", "Czech First League", Some("Czechia"), Europe, Some("\U{1F1E8}\U{1F1FF}")))
  ]

  lemma EuropeLinesWellFormed1()
    ensures forall i :: 0 <= i < 9 ==> WellFormedEntry(EUROPE_LEAGUES[i])
  {
    forall i | 0 <= i < 9
      ensures WellFormedEntry(EUROPE_LEAGUES[i])
    {
      if i == 0 {
      } else if i == 1 {
      } else if i == 2 {
      } else if i == 3 {
      } else if i == 4 {
      } else if i == 5 {
      } else if i == 6 {
      } else if i == 7 {
      } else {
      }
    }
  }

  lemma EuropeLinesWellFormed2()
    ensures forall i :: 9 <= i < 18 ==> WellFormedEntry(EUROPE_LEAGUES[i])
  {
    forall i | 9 <= i < 18
      ensures WellFormedEntry(EUROPE_LEAGUES[i])
    {
      if i == 9 {
      } else if i == 10 {
      } else if i == 11 {
      } else if i == 12 {
      } else if i == 13 {
      } else if i == 14 {
      } else if i == 15 {
      } else if i == 16 {
      } else {
      }
    }
  }

  lemma EuropeLinesWellFormed3()
    ensures forall i :: 18 <= i < 26 ==> WellFormedEntry(EUROPE_LEAGUES[i])
  {
    forall i | 18 <= i < 26
      ensures WellFormedEntry(EUROPE_LEAGUES[i])
    {
      if i == 18 {
      } else if i == 19 {
      } else if i == 20 {
      } else if i == 21 {
      } else if i == 22 {
      } else if i == 23 {
      } else if i == 24 {
      } else {
      }
    }
  }

  lemma EuropeWellFormed()
    ensures AllWellFormed(EUROPE_LEAGUES)
  {
    EuropeLinesWellFormed1();
    EuropeLinesWellFormed2();
    EuropeLinesWellFormed3();
  }

  /** The lines for the Americas. */
  const AMERICAS_LEAGUES: seq<Entry> := [
    Entry("usa.1", League("usa.1", "MLS", Some("USA"), Americas, Some("\U{1F1FA}\U{1F1F8}"))),
    Entry("mex.1", League("mex.1", "Liga MX", Some("Mexico"), Americas, Some("\U{1F1F2}\U{1F1FD}"))),
    Entry("bra.1", League("bra.1", "Brasileir\U{E3}o", Some("Brazil"), Americas, Some("\U{1F1E7}\U{1F1F7}"))),
    Entry("bra.2", League("bra.2", "S\U{E9}rie B", Some("Brazil"), Americas, Some("\U{1F1E7}\U{1F1F7}"))),
    Entry("arg.1", League("arg.1", "Primera Divisi\U{F3}n", Some("Argentina"), Americas, Some("\U{1F1E6}\U{1F1F7}"))),
    Entry("col.1", League("col.1", "Categor\U{ED}a Primera A", Some("Colombia"), Americas, Some("\U{1F1E8}\U{1F1F4}"))),
    Entry("chi.1", League("chi.1", "Primera Divisi\U{F3}n", Some("Chile"), Americas, Some("\U{1F1E8}\U{1F1F1}"))),
    Entry("per.1", League("per.1", "Liga 1", Some("Peru"), Americas, Some("\U{1F1F5}\U{1F1EA}"))),
    Entry("ecu.1", League("ecu.1", "Serie A", Some("Ecuador"), Americas, Some("\U{1F1EA}\U{1F1E8}"))),
    Entry("uru.1", League("uru.1", "Primera Divisi\U{F3}n", Some("Uruguay"), Americas, Some("\U{1F1FA}\U{1F1FE}")))
  ]

  lemma AmericasWellFormed()
    ensures AllWellFormed(AMERICAS_LEAGUES)
  {
    forall i | 0 <= i < |AMERICAS_LEAGUES|
      ensures WellFormedEntry(AMERICAS_LEAGUES[i])
    {
      if i == 0 {
      } else if i == 1 {
      } else if i == 2 {
      } else if i == 3 {
      } else if i == 4 {
      } else if i == 5 {
      } else if i == 6 {
      } else if i == 7 {
      } else if i == 8 {
      } else {
      }
    }
  }

  /** The lines for Asia and Oceania. */
  const ASIA_OCEANIA_LEAGUES: seq<Entry> := [
    Entry("jpn.1", League("jpn.1", "J1 League", Some("Japan"), Asia, Some("\U{1F1EF}\U{1F1F5}"))),
    Entry("kor.1", League("kor.1", "K League 1", Some("South Korea"), Asia, Some("\U{1F1F0}\U{1F1F7}"))),
    Entry("chn.1", League("chn.1", "Chinese Super League", Some("China"), Asia, Some("\U{1F1E8}\U{1F1F3}"))),
    Entry("aus.1", League("aus.1", "A-League", Some("Australia"), Oceania, Some("\U{1F1E6}\U{1F1FA}"))),
    Entry("ind.1", League("ind.1", "Indian Super League", Some("India"), Asia, Some("\U{1F1EE}\U{1F1F3}"))),
    Entry("sau.1", League("sau.1", "Saudi Pro League", Some("Saudi Arabia"), Asia, Some("\U{1F1F8}\U{1F1E6}"))),
    Entry("uae.1", League("uae.1", "UAE Pro League", Some("UAE"), Asia, Some("\U{1F1E6}\U{1F1EA}"))),
    Entry("qat.1", League("qat.1", "Qatar Stars League", Some("Qatar"), Asia, Some("\U{1F1F6}\U{1F1E6}"))),
    Entry("tha.1", League("tha.1", "Thai League", Some("Thailand"), Asia, Some("\U{1F1F9}\U{1F1ED}"))),
    Entry("mys.1", League("mys.1", "Malaysian Super League", Some("Malaysia"), Asia, Some("\U{1F1F2}\U{1F1FE}")))
  ]

  lemma AsiaOceaniaWellFormed()
    ensures AllWellFormed(ASIA_OCEANIA_LEAGUES)
  {
    forall i | 0 <= i < |ASIA_OCEANIA_LEAGUES|
      ensures WellFormedEntry(ASIA_OCEANIA_LEAGUES[i])
    {
      if i == 0 {
      } else if i == 1 {
      } else if i == 2 {
      } else if i == 3 {
      } else if i == 4 {
      } else if i == 5 {
      } else if i == 6 {
      } else if i == 7 {
      } else if i == 8 {
      } else {
      }
    }
  }

  /** The lines for Africa. */
  const AFRICA_LEAGUES: seq<Entry> := [
    Entry("egy.1", League("egy.1", "Egyptian Premier League", Some("Egypt"), Africa, Some("\U{1F1EA}\U{1F1EC}"))),
    Entry("rsa.1", League("rsa.1", "South African Premier", Some("South Africa"), Africa, Some("\U{1F1FF}\U{1F1E6}"))),
    Entry("mor.1", League("mor.1", "Botola Pro", Some("Morocco"), Africa, Some("\U{1F1F2}\U{1F1E6}"))),
    Entry("tun.1", League("tun.1", "Tunisian Ligue 1", Some("Tunisia"), Africa, Some("\U{1F1F9}\U{1F1F3}"))),
    Entry("alg.1", League("alg.1", "Ligue 1", Some("Algeria"), Africa, Some("\U{1F1E9}\U{1F1FF}"))),
    Entry("nga.1", League("nga.1", "NPFL", Some("Nigeria"), Africa, Some("\U{1F1F3}\U{1F1EC}")))
  ]

  lemma AfricaWellFormed()
    ensures AllWellFormed(AFRICA_LEAGUES)
  {
    forall i | 0 <= i < |AFRICA_LEAGUES|
      ensures WellFormedEntry(AFRICA_LEAGUES[i])
    {
      if i == 0 {
      } else if i == 1 {
      } else if i == 2 {
      } else if i == 3 {
      } else if i == 4 {
      } else {
      }
    }
  }

  /** The lines for international competitions. */
  const INTERNATIONAL_LEAGUES: seq<Entry> := [
    Entry("uefa.champions", League("uefa.champions", "UEFA Champions League", None, International, Some("\U{1F3C6}"))),
    Entry("uefa.europa", League("uefa.europa", "UEFA Europa League", None, International, Some("\U{1F3C6}"))),
    Entry("uefa.europa.conf", League("uefa.europa.conf", "UEFA Conference League", None, International, Some("\U{1F3C6}"))),
    Entry("conmebol.libertadores", League("conmebol.libertadores", "Copa Libertadores", None, International, Some("\U{1F3C6}"))),
    Entry("conmebol.sudamericana", League("conmebol.sudamericana", "Copa Sudamericana", None, International, Some("\U{1F3C6}"))),
    Entry("afc.champions", League("afc.champions", "AFC Champions League", None, International, Some("\U{1F3C6}"))),
    Entry("caf.nations", League("caf.nations", "Africa Cup of Nations", None, International, Some("\U{1F3C6}"))),
    Entry("fifa.world", League("fifa.world", "FIFA World Cup", None, International, Some("\U{1F3C6}"))),
    Entry("uefa.euro", League("uefa.euro", "UEFA Euro", None, International, Some("\U{1F3C6}")))
  ]

  lemma InternationalWellFormed()
    ensures AllWellFormed(INTERNATIONAL_LEAGUES)
  {
    forall i | 0 <= i < |INTERNATIONAL_LEAGUES|
      ensures WellFormedEntry(INTERNATIONAL_LEAGUES[i])
    {
      if i == 0 {
      } else if i == 1 {
      } else if i == 2 {
      } else if i == 3 {
      } else if i == 4 {
      } else if i == 5 {
      } else if i == 6 {
      } else if i == 7 {
      } else {
      }
    }
  }

  /** The lines for domestic cups. */
  const CUP_LEAGUES: seq<Entry> := [
    Entry("eng.fa", League("eng.fa", "FA Cup", Some("England"), Europe, Some("\U{1F3F4}\U{E0067}\U{E0062}\U{E0065}\U{E006E}\U{E0067}\U{E007F}"))),
    Entry("eng.league_cup", League("eng.league_cup", "EFL Cup", Some("England"), Europe, Some("\U{1F3F4}\U{E0067}\U{E0062}\U{E0065}\U{E006E}\U{E0067}\U{E007F}"))),
    Entry("esp.copa_del_rey", League("esp.copa_del_rey", "Copa del Rey", Some("Spain"), Europe, Some("\U{1F1EA}\U{1F1F8}"))),
    Entry("ger.dfb_pokal", League("ger.dfb_pokal", "DFB Pokal", Some("Germany"), Europe, Some("\U{1F1E9}\U{1F1EA}"))),
    Entry("ita.coppa_italia", League("ita.coppa_italia", "Coppa Italia", Some("Italy"), Europe, Some("\U{1F1EE}\U{1F1F9}"))),
    Entry("fra.coupe_de_france", League("fra.coupe_de_france", "Coupe de France", Some("France"), Europe, Some("\U{1F1EB}\U{1F1F7}")))
  ]

  lemma CupsWellFormed()
    ensures AllWellFormed(CUP_LEAGUES)
  {
    forall i | 0 <= i < |CUP_LEAGUES|
      ensures WellFormedEntry(CUP_LEAGUES[i])
    {
      if i == 0 {
      } else if i == 1 {
      } else if i == 2 {
      } else if i == 3 {
      } else if i == 4 {
      } else {
      }
    }
  }

  /** The whole table, its sections in the order they are written. */
  const LEAGUES: seq<Entry> :=
    EUROPE_LEAGUES + AMERICAS_LEAGUES + ASIA_OCEANIA_LEAGUES + AFRICA_LEAGUES
    + INTERNATIONAL_LEAGUES + CUP_LEAGUES

  /** Every line of the table keys its league by the league's own code and
      gives it a non-empty name and flag. */
  lemma TableWellFormed()
    ensures AllWellFormed(LEAGUES)
  {
    EuropeWellFormed();
    AmericasWellFormed();
    AsiaOceaniaWellFormed();
    AfricaWellFormed();
    InternationalWellFormed();
    CupsWellFormed();
    WellFormedAppend(EUROPE_LEAGUES, AMERICAS_LEAGUES);
    WellFormedAppend(EUROPE_LEAGUES + AMERICAS_LEAGUES, ASIA_OCEANIA_LEAGUES);
    WellFormedAppend(EUROPE_LEAGUES + AMERICAS_LEAGUES + ASIA_OCEANIA_LEAGUES, AFRICA_LEAGUES);
    WellFormedAppend(EUROPE_LEAGUES + AMERICAS_LEAGUES + ASIA_OCEANIA_LEAGUES + AFRICA_LEAGUES,
      INTERNATIONAL_LEAGUES);
    WellFormedAppend(EUROPE_LEAGUES + AMERICAS_LEAGUES + ASIA_OCEANIA_LEAGUES + AFRICA_LEAGUES
      + INTERNATIONAL_LEAGUES, CUP_LEAGUES);
  }

  // ---------------------------------------------------------------------------
  // Lookup by key

  /** Some line of `table` has the key `code`. */
  predicate HasKey(table: seq<Entry>, code: string) {
    exists i :: 0 <= i < |table| && table[i].key == code
  }

  /** Line `i` is the last line of `table` with key `code`. */
  predicate LastWithKey(table: seq<Entry>, code: string, i: nat) {
    i < |table| && table[i].key == code && forall j :: i < j < |table| ==> table[j].key != code
  }

  lemma HasKeyAppend(a: seq<Entry>, b: seq<Entry>, code: string)
    ensures HasKey(a + b, code) <==> HasKey(a, code) || HasKey(b, code)
  {
    if HasKey(a + b, code) {
      var i :| 0 <= i < |a + b| && (a + b)[i].key == code;
      if i >= |a| {
        assert b[i - |a|] == (a + b)[i];
      }
    }
    if HasKey(a, code) {
      var i :| 0 <= i < |a| && a[i].key == code;
      assert (a + b)[i] == a[i];
    }
    if HasKey(b, code) {
      var i :| 0 <= i < |b| && b[i].key == code;
      assert (a + b)[|a| + i] == b[i];
    }
  }

  /** `table[code]`: the league of the last line with that key, as an object
      literal keeps the last of repeated keys; `None` when no line has it. */
  function Lookup(table: seq<Entry>, code: string): Option<League> {
    if table == [] then None
    else if table[|table| - 1].key == code then Some(table[|table| - 1].league)
    else Lookup(table[..|table| - 1], code)
  }

  /** The lookup fails exactly when no line has the key. */
  lemma {:induction false} LookupMissing(table: seq<Entry>, code: string)
    ensures Lookup(table, code).None? <==> !HasKey(table, code)
    decreases |table|
  {
    if table != [] {
      var n := |table| - 1;
      LookupMissing(table[..n], code);
      if HasKey(table[..n], code) {
        var i :| 0 <= i < n && table[..n][i].key == code;
        assert table[i] == table[..n][i];
      }
      if HasKey(table, code) && table[n].key != code {
        var i :| 0 <= i < |table| && table[i].key == code;
        assert table[..n][i] == table[i];
      }
    }
  }

  /** A lookup finds the league of the last line with the key. */
  lemma {:induction false} LookupLast(table: seq<Entry>, code: string, i: nat)
    requires LastWithKey(table, code, i)
    ensures Lookup(table, code) == Some(table[i].league)
    decreases |table|
  {
    var n := |table| - 1;
    if i < n {
      assert forall j :: i < j < n ==> table[..n][j] == table[j];
      LookupLast(table[..n], code, i);
    }
  }

  // ---------------------------------------------------------------------------
  // getLeagueName and getLeagueFlag

  /** The flag shown for a code the table does not know. */
  const DEFAULT_FLAG: string := "\U{26BD}"

  /** `table[code]?.name || code`. */
  function NameIn(table: seq<Entry>, code: string): string {
    var found := Lookup(table, code);
    if found.Some? && found.value.name != "" then found.value.name else code
  }

  /** `table[code]?.flag || DEFAULT_FLAG`. */
  function FlagIn(table: seq<Entry>, code: string): string {
    var found := Lookup(table, code);
    if found.Some? && found.value.flag.Some? && found.value.flag.value != "" then found.value.flag.value
    else DEFAULT_FLAG
  }

  /** `getLeagueName`: the table's name, or the code itself when the code is
      unknown or the name empty. */
  function GetLeagueName(code: string): string {
    NameIn(LEAGUES, code)
  }

  /** `getLeagueFlag`: the table's flag, or the football when the code is
      unknown or the flag missing or empty. */
  function GetLeagueFlag(code: string): string {
    FlagIn(LEAGUES, code)
  }

  /** In a well-formed table a known code gets the name and flag of its last
      line, and an unknown code gets itself and the football. */
  lemma NameAndFlagIn(table: seq<Entry>, code: string)
    requires AllWellFormed(table)
    ensures forall i: nat :: LastWithKey(table, code, i) ==>
              NameIn(table, code) == table[i].league.name && FlagIn(table, code) == table[i].league.flag.value
    ensures !HasKey(table, code) ==> NameIn(table, code) == code && FlagIn(table, code) == DEFAULT_FLAG
  {
    forall i: nat | LastWithKey(table, code, i)
      ensures NameIn(table, code) == table[i].league.name && FlagIn(table, code) == table[i].league.flag.value
    {
      LookupLast(table, code, i);
      assert WellFormedEntry(table[i]);
    }
    LookupMissing(table, code);
  }

  /** For a known code the name and flag are those of the line with that
      key (the last one, were the key repeated); the fallbacks never apply. */
  lemma KnownCode(code: string, i: nat)
    requires LastWithKey(LEAGUES, code, i)
    ensures GetLeagueName(code) == LEAGUES[i].league.name != ""
    ensures LEAGUES[i].league.flag == Some(GetLeagueFlag(code)) && GetLeagueFlag(code) != ""
  {
    TableWellFormed();
    NameAndFlagIn(LEAGUES, code);
    assert WellFormedEntry(LEAGUES[i]);
  }

  /** For an unknown code the name is the code and the flag the football. */
  lemma UnknownCode(code: string)
    requires !HasKey(LEAGUES, code)
    ensures GetLeagueName(code) == code
    ensures GetLeagueFlag(code) == DEFAULT_FLAG
  {
    TableWellFormed();
    NameAndFlagIn(LEAGUES, code);
  }

  /** The empty code is not a key, so its name is the empty string. */
  lemma EmptyCodeUnknown()
    ensures GetLeagueName("") == ""
  {
    TableWellFormed();
    NameAndFlagIn(LEAGUES, "");
  }

  // ---------------------------------------------------------------------------
  // CONTINENTS

  /** A group of leagues shown together. */
  datatype Continent = Continent(id: string, name: string, emoji: string, leagues: seq<League>)

  /** `Object.values(table).filter(l => l.continent === IdOf(c))`: the
      leagues of the lines on continent `c`, in table order. */
  function LeaguesIn(table: seq<Entry>, c: ContinentId): seq<League> {
    if table == [] then []
    else
      var last := table[|table| - 1].league;
      LeaguesIn(table[..|table| - 1], c) + (if last.continent == c then [last] else [])
  }

  /** Filtering a table is filtering its parts: a group keeps table order. */
  lemma {:induction false} LeaguesInAppend(a: seq<Entry>, b: seq<Entry>, c: ContinentId)
    ensures LeaguesIn(a + b, c) == LeaguesIn(a, c) + LeaguesIn(b, c)
    decreases |b|
  {
    if b == [] {
      assert a + b == a;
    } else {
      var n := |b| - 1;
      assert (a + b)[..|a + b| - 1] == a + b[..n];
      LeaguesInAppend(a, b[..n], c);
    }
  }

  /** A league is in a group exactly when some line holds it and it is on
      the group's continent. */
  lemma {:induction false} LeaguesInExactly(table: seq<Entry>, c: ContinentId, l: League)
    ensures l in LeaguesIn(table, c) <==> (exists i :: 0 <= i < |table| && table[i].league == l) && l.continent == c
    decreases |table|
  {
    if table != [] {
      var n := |table| - 1;
      LeaguesInExactly(table[..n], c, l);
      if l in LeaguesIn(table[..n], c) {
        var i :| 0 <= i < n && table[..n][i].league == l;
        assert table[i] == table[..n][i];
      }
      if l.continent == c && exists i :: 0 <= i < |table| && table[i].league == l {
        var i :| 0 <= i < |table| && table[i].league == l;
        if i < n {
          assert table[..n][i] == table[i];
        }
      }
    }
  }

  /** The group sizes of the six continents add up to the table's size. */
  lemma {:induction false} GroupSizes(table: seq<Entry>)
    ensures |LeaguesIn(table, Europe)| + |LeaguesIn(table, Americas)| + |LeaguesIn(table, Asia)|
          + |LeaguesIn(table, Africa)| + |LeaguesIn(table, Oceania)| + |LeaguesIn(table, International)| == |table|
    decreases |table|
  {
    if table != [] {
      GroupSizes(table[..|table| - 1]);
    }
  }

  /** The continent groups, each filtered from the table. */
  const CONTINENTS: seq<Continent> := [
    Continent(IdOf(Europe), "Avrupa", "\U{1F1EA}\U{1F1FA}", LeaguesIn(LEAGUES, Europe)),
    Continent(IdOf(Americas), "Amerika", "\U{1F30E}", LeaguesIn(LEAGUES, Americas)),
    Continent(IdOf(Asia), "Asya", "\U{1F30F}", LeaguesIn(LEAGUES, Asia)),
    Continent(IdOf(Africa), "Afrika", "\U{1F30D}", LeaguesIn(LEAGUES, Africa)),
    Continent(IdOf(Oceania), "Okyanusya", "\U{1F30A}", LeaguesIn(LEAGUES, Oceania)),
    Continent(IdOf(International), "Uluslararas\U{131}", "\U{1F3C6}", LeaguesIn(LEAGUES, International))
  ]

  /** The continent of a group's position in `CONTINENTS`. */
  function GroupContinent(k: nat): ContinentId
    requires k < 6
  {
    [Europe, Americas, Asia, Africa, Oceania, International][k]
  }

  /** Each group is the table filtered to its own continent. */
  lemma ContinentsAreGroups()
    ensures |CONTINENTS| == 6
    ensures forall k :: 0 <= k < 6 ==>
              CONTINENTS[k].id == IdOf(GroupContinent(k)) && CONTINENTS[k].leagues == LeaguesIn(LEAGUES, GroupContinent(k))
  {
  }

  /** The groups partition the table: every line's league is in the group
      of its own continent and in no other, and the sizes add up. */
  lemma ContinentsPartition()
    ensures forall i, k :: 0 <= i < |LEAGUES| && 0 <= k < |CONTINENTS| ==>
              (LEAGUES[i].league in CONTINENTS[k].leagues <==> IdOf(LEAGUES[i].league.continent) == CONTINENTS[k].id)
    ensures |CONTINENTS[0].leagues| + |CONTINENTS[1].leagues| + |CONTINENTS[2].leagues|
          + |CONTINENTS[3].leagues| + |CONTINENTS[4].leagues| + |CONTINENTS[5].leagues| == |LEAGUES|
  {
    ContinentsAreGroups();
    forall i, k | 0 <= i < |LEAGUES| && 0 <= k < |CONTINENTS|
      ensures LEAGUES[i].league in CONTINENTS[k].leagues <==> IdOf(LEAGUES[i].league.continent) == CONTINENTS[k].id
    {
      LeaguesInExactly(LEAGUES, GroupContinent(k), LEAGUES[i].league);
      IdOfInjective(LEAGUES[i].league.continent, GroupContinent(k));
    }
    GroupSizes(LEAGUES);
  }

  // ---------------------------------------------------------------------------
  // TOP_LEAGUES

  /** The codes featured first. */
  const TOP_LEAGUES: seq<string> := ["eng.1", "esp.1", "ger.1", "ita.1", "fra.1", "tur.1", "uefa.champions"]

  /** A key of the table is a key of one of its sections. */
  lemma KeyInSections(code: string)
    ensures HasKey(LEAGUES, code) <==>
              HasKey(EUROPE_LEAGUES, code) || HasKey(AMERICAS_LEAGUES, code) || HasKey(ASIA_OCEANIA_LEAGUES, code)
              || HasKey(AFRICA_LEAGUES, code) || HasKey(INTERNATIONAL_LEAGUES, code) || HasKey(CUP_LEAGUES, code)
  {
    var rest := AFRICA_LEAGUES + (INTERNATIONAL_LEAGUES + CUP_LEAGUES);
    HasKeyAppend(INTERNATIONAL_LEAGUES, CUP_LEAGUES, code);
    HasKeyAppend(AFRICA_LEAGUES, INTERNATIONAL_LEAGUES + CUP_LEAGUES, code);
    HasKeyAppend(ASIA_OCEANIA_LEAGUES, rest, code);
    HasKeyAppend(AMERICAS_LEAGUES, ASIA_OCEANIA_LEAGUES + rest, code);
    HasKeyAppend(EUROPE_LEAGUES, AMERICAS_LEAGUES + (ASIA_OCEANIA_LEAGUES + rest), code);
    assert LEAGUES == EUROPE_LEAGUES + (AMERICAS_LEAGUES + (ASIA_OCEANIA_LEAGUES + rest));
  }

  /** The codes of the five major European leagues, found in the European
      lines. */
  lemma BigFiveInEurope()
    ensures HasKey(EUROPE_LEAGUES, "eng.1") && HasKey(EUROPE_LEAGUES, "esp.1") && HasKey(EUROPE_LEAGUES, "ger.1")
    ensures HasKey(EUROPE_LEAGUES, "ita.1") && HasKey(EUROPE_LEAGUES, "fra.1")
  {
    assert EUROPE_LEAGUES[0].key == "eng.1";
    assert EUROPE_LEAGUES[2].key == "esp.1";
    assert EUROPE_LEAGUES[4].key == "ger.1";
    assert EUROPE_LEAGUES[6].key == "ita.1";
    assert EUROPE_LEAGUES[8].key == "fra.1";
  }

  /** The featured codes, found in their sections. */
  lemma TopLeaguesInSections()
    ensures HasKey(EUROPE_LEAGUES, "eng.1") && HasKey(EUROPE_LEAGUES, "esp.1") && HasKey(EUROPE_LEAGUES, "ger.1")
    ensures HasKey(EUROPE_LEAGUES, "ita.1") && HasKey(EUROPE_LEAGUES, "fra.1") && HasKey(EUROPE_LEAGUES, "tur.1")
    ensures HasKey(INTERNATIONAL_LEAGUES, "uefa.champions")
  {
    BigFiveInEurope();
    assert EUROPE_LEAGUES[12].key == "tur.1";
    assert INTERNATIONAL_LEAGUES[0].key == "uefa.champions";
  }

  /** Every featured code is a key of the table, so its name and flag come
      from the table. */
  lemma TopLeaguesKnown()
    ensures forall k :: 0 <= k < |TOP_LEAGUES| ==> HasKey(LEAGUES, TOP_LEAGUES[k])
  {
    TopLeaguesInSections();
    forall k | 0 <= k < |TOP_LEAGUES|
      ensures HasKey(LEAGUES, TOP_LEAGUES[k])
    {
      KeyInSections(TOP_LEAGUES[k]);
    }
  }
}
