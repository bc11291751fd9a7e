/** The team MCP server's `find_mlb_baseball_teams` tool
    (agent-team/src/mcp_server.py): validate the optional criteria, grow a
    SQL `where` clause from them, run it, and turn each row into a team
    record with the league code spelled out. */
module TeamSearch {
  import opened PyRuntime
  import opened AgentDb

  /** The tool's four optional parameters. */
  datatype Criteria = Criteria(teamName: Option<string>, city: Option<string>, year: Option<int>, league: Option<string>)

  const NO_SEARCH_PARAMETER := ValueError("No search parameter specified!")

  /** The projection and table every query starts with; the filters follow `where `. */
  const TEAM_SELECT := "select season_year, team_code, league, team_location, team_name from team where "

  /** One condition of the `where` clause. */
  datatype Filter =
    | NameLike(name: string)
    | CityLike(city: string)
    | SeasonIs(year: int)
    | LeagueIs(code: char)

  /** The position of a filter's kind in the fixed order the clause lists them. */
  function Rank(f: Filter): nat
  {
    match f
    case NameLike(_) => 0
    case CityLike(_) => 1
    case SeasonIs(_) => 2
    case LeagueIs(_) => 3
  }

  /** The SQL text of a filter, with the value interpolated raw (no escaping);
      the league column is spelled `leage`, as the server sends it. */
  function Render(f: Filter): string
  {
    match f
    case NameLike(n) => "upper(team_name) like upper('%" + n + "%') "
    case CityLike(c) => "upper(team_location) like upper('%" + c + "%') "
    case SeasonIs(y) => "season_year = " + IntToString(y) + " "
    case LeagueIs(k) => "upper(leage) = upper('" + [k] + "') "
  }

  /** The only criteria the tool refuses: all four left out. */
  predicate NoCriteria(c: Criteria)
  {
    c.teamName.None? && c.city.None? && c.year.None? && c.league.None?
  }

  /** The filters the criteria ask for, in clause order. */
  function Filters(c: Criteria): (fs: seq<Filter>)
    ensures |fs| <= 4
    ensures forall i, j :: 0 <= i < j < |fs| ==> Rank(fs[i]) < Rank(fs[j])
  {
    var withName := if Given(c.teamName) then [NameLike(c.teamName.value)] else [];
    var withCity := if Given(c.city) then withName + [CityLike(c.city.value)] else withName;
    var withYear := if c.year.Some? then withCity + [SeasonIs(c.year.value)] else withCity;
    if Given(c.league) then withYear + [LeagueIs(c.league.value[0])] else withYear
  }

  /** Whether the criteria call for filter `f`. */
  predicate Requested(c: Criteria, f: Filter)
  {
    match f
    case NameLike(n) => c.teamName == Some(n) && n != ""
    case CityLike(t) => c.city == Some(t) && t != ""
    case SeasonIs(y) => c.year == Some(y)
    case LeagueIs(k) => Given(c.league) && k == c.league.value[0]
  }

  /** A filter appears exactly when the criteria call for it: a text
      criterion when present and non-empty, the year whenever present, and
      the league reduced to its first character. */
  lemma FilterPresence(c: Criteria, f: Filter)
    ensures f in Filters(c) <==> Requested(c, f)
  {
  }

  /** The fragments joined with `and ` between neighbours. */
  function Join(parts: seq<string>): string
  {
    if |parts| == 0 then ""
    else if |parts| == 1 then parts[0]
    else Join(parts[..|parts| - 1]) + "and " + parts[|parts| - 1]
  }

  function Rendered(fs: seq<Filter>): seq<string>
  {
    seq(|fs|, i requires 0 <= i < |fs| => Render(fs[i]))
  }

  /** The SQL text the tool runs for the criteria. */
  function TeamQuery(c: Criteria): string
  {
    TEAM_SELECT + Join(Rendered(Filters(c)))
  }

  lemma JoinSnoc(parts: seq<string>, p: string)
    ensures Join(parts + [p]) == if parts == [] then p else Join(parts) + "and " + p
  {
    assert (parts + [p])[..|parts|] == parts;
  }

  /** The separator in front of the fragment at position `i`. */
  function Separator(i: nat): string { if i == 0 then "" else "and " }

  function Concat(parts: seq<string>): string
  {
    if parts == [] then "" else Concat(parts[..|parts| - 1]) + parts[|parts| - 1]
  }

  /** Every fragment but the first is preceded by exactly one `and `. */
  lemma {:induction false} JoinPrefixesSeparators(parts: seq<string>)
    ensures Join(parts) == Concat(seq(|parts|, i requires 0 <= i < |parts| => Separator(i) + parts[i]))
  {
    var prefixed := seq(|parts|, i requires 0 <= i < |parts| => Separator(i) + parts[i]);
    if |parts| > 1 {
      var front := parts[..|parts| - 1];
      JoinPrefixesSeparators(front);
      assert prefixed[..|prefixed| - 1] == seq(|front|, i requires 0 <= i < |front| => Separator(i) + front[i]);
    } else if |parts| == 1 {
      assert prefixed[..0] == [];
    }
  }

  /** Fields that are all absent or empty, with the year absent, yield the
      bare `... where ` text; only all-absent criteria are refused. */
  lemma BlankCriteriaGiveBareClause(c: Criteria)
    requires !Given(c.teamName) && !Given(c.city) && c.year.None? && !Given(c.league)
    ensures TeamQuery(c) == TEAM_SELECT
    ensures TeamQuery(c)[|TeamQuery(c)| - 6..] == "where "
  {
    assert Filters(c) == [];
  }

  /** With exactly one filter the clause is that filter's fragment alone. */
  lemma SingleFilter(c: Criteria)
    requires |Filters(c)| == 1
    ensures TeamQuery(c) == TEAM_SELECT + Render(Filters(c)[0])
  {
  }

  /** Lines 42-62: the clause grown by `sql +=`, with `prev` remembering
      whether a fragment is already there. */
  method BuildTeamQuery(c: Criteria) returns (sql: string)
    ensures sql == TeamQuery(c)
  {
    ghost var fs: seq<Filter> := [];
    sql := TEAM_SELECT;
    var prev := false;
    if c.teamName.Some? && |c.teamName.value| > 0 {
      sql, prev, fs := AddFilter(sql, prev, fs, NameLike(c.teamName.value));
    }
    ghost var withName := fs;
    assert withName == if Given(c.teamName) then [NameLike(c.teamName.value)] else [];
    if c.city.Some? && |c.city.value| > 0 {
      sql, prev, fs := AddFilter(sql, prev, fs, CityLike(c.city.value));
    }
    ghost var withCity := fs;
    assert withCity == if Given(c.city) then withName + [CityLike(c.city.value)] else withName;
    if c.year.Some? {
      sql, prev, fs := AddFilter(sql, prev, fs, SeasonIs(c.year.value));
    }
    ghost var withYear := fs;
    assert withYear == if c.year.Some? then withCity + [SeasonIs(c.year.value)] else withCity;
    if c.league.Some? && |c.league.value| > 0 {
      var leagueCode := c.league.value[0];
      sql, prev, fs := AddFilter(sql, prev, fs, LeagueIs(leagueCode));
    }
    assert fs == if Given(c.league) then withYear + [LeagueIs(c.league.value[0])] else withYear;
  }

  /** Lines 48-51 (and the same block for each criterion): `and ` when a
      fragment is already there, then the filter's fragment; the clause is
      then that of the filters so far plus this one. The name block at lines
      44-46 omits the `prev` test, which is false there anyway. */
  method AddFilter(sql: string, prev: bool, ghost fs: seq<Filter>, f: Filter)
    returns (sql': string, prev': bool, ghost fs': seq<Filter>)
    requires sql == TEAM_SELECT + Join(Rendered(fs)) && prev == (fs != [])
    ensures fs' == fs + [f]
    ensures sql' == TEAM_SELECT + Join(Rendered(fs')) && prev'
  {
    AppendFilter(TEAM_SELECT, sql, prev, fs, f);
    sql' := sql;
    if prev {
      sql' := sql' + "and ";
    }
    prev' := true;
    sql' := sql' + Render(f);
    fs' := fs + [f];
  }

  /** The step behind `AddFilter`, on the clause text alone, after any
      fixed `head`. */
  lemma AppendFilter(head: string, sql: string, prev: bool, fs: seq<Filter>, f: Filter)
    requires sql == head + Join(Rendered(fs)) && prev == (fs != [])
    ensures (if prev then sql + "and " else sql) + Render(f) == head + Join(Rendered(fs + [f]))
  {
    assert Rendered(fs + [f]) == Rendered(fs) + [Render(f)];
    JoinStep(head, sql, prev, Rendered(fs), Render(f));
  }

  /** Appending a fragment, after `and ` exactly when fragments are
      already joined, joins one more fragment. */
  lemma JoinStep(head: string, sql: string, prev: bool, parts: seq<string>, p: string)
    requires sql == head + Join(parts) && prev == (parts != [])
    ensures (if prev then sql + "and " else sql) + p == head + Join(parts + [p])
  {
    JoinSnoc(parts, p);
    if prev {
      calc {
        head + Join(parts + [p]);
        head + (Join(parts) + "and " + p);
        (head + Join(parts) + "and ") + p;
      }
    } else {
      assert Join(parts) == "";
    }
  }

  /** Lines 79-83: the league code spelled out. */
  function LeagueName(code: Value): (r: Value)
    ensures r == code <==> code != PyStr("A") && code != PyStr("N")
    ensures code == PyStr("A") ==> r == PyStr("American League")
    ensures code == PyStr("N") ==> r == PyStr("National League")
  {
    if code == PyStr("A") then PyStr("American League")
    else if code == PyStr("N") then PyStr("National League")
    else code
  }

  /** A row of the query: season_year, team_code, league, team_location, team_name. */
  type TeamRow = r: Row | |r| == 5 witness [PyNone, PyNone, PyNone, PyNone, PyNone]

  /** The dictionary the tool returns per team. */
  datatype TeamRecord = TeamRecord(season: Value, teamCode: Value, league: Value, location: Value, name: Value)

  function TeamRecordOf(row: TeamRow): TeamRecord
  {
    TeamRecord(row[0], row[1], LeagueName(row[2]), row[3], row[4])
  }

  /** The whole tool. Refuses all-absent criteria before any SQL exists or
      the configuration is read; otherwise needs the connection string, and
      returns one record per row, in row order. */
  method FindMlbBaseballTeams(c: Criteria, env: Env, db: Database<TeamRow>) returns (r: Result<seq<TeamRecord>>)
    ensures NoCriteria(c) ==> r == Failure(NO_SEARCH_PARAMETER)
    ensures !NoCriteria(c) && ENV_DB_CONNECTION_STRING !in env ==> r == Failure(MISSING_CONNECTION_STRING)
    ensures !NoCriteria(c) && ENV_DB_CONNECTION_STRING in env ==>
      var rows := db(env[ENV_DB_CONNECTION_STRING], TeamQuery(c));
      && r.Success?
      && |r.value| == |rows|
      && forall i :: 0 <= i < |rows| ==> r.value[i] == TeamRecordOf(rows[i])
  {
    if c.teamName.None? && c.city.None? && c.year.None? && c.league.None? {
      return Failure(NO_SEARCH_PARAMETER);
    }
    var sql := BuildTeamQuery(c);
    var connection := ConnectionString(env);
    if connection.Failure? {
      return Failure(connection.error);
    }
    var rows := db(connection.value, sql);
    var results: seq<TeamRecord> := [];
    for i := 0 to |rows|
      invariant |results| == i
      invariant forall k :: 0 <= k < i ==> results[k] == TeamRecordOf(rows[k])
    {
      var record := rows[i];
      var league := record[2];
      if record[2] == PyStr("A") {
        league := PyStr("American League");
      } else if record[2] == PyStr("N") {
        league := PyStr("National League");
      }
      results := results + [TeamRecord(record[0], record[1], league, record[3], record[4])];
    }
    return Success(results);
  }
}
