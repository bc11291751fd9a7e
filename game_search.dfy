/** The game MCP server (agent-game/src/mcp_server.py): the
    `search_mlb_games` tool, which validates a season and team codes, runs
    one fixed SQL text and turns rows into game summaries, and the
    `get_schedule_and_record` tool, which reshapes the schedule a baseball
    data library returns. */
module GameSearch {
  import opened PyRuntime
  import opened PyStrings
  import opened AgentDb

  /** The validated parameters of a game search. */
  datatype GameQuery = GameQuery(year: int, teamCode1: string, teamCode2: string)

  /** `str()` of an optional integer parameter. */
  function ShowOptionalInt(x: Option<int>): string
  {
    if x.None? then Show(PyNone) else Show(PyInt(x.value))
  }

  /** `str()` of an optional string parameter. */
  function ShowOptionalStr(x: Option<string>): string
  {
    if x.None? then Show(PyNone) else Show(PyStr(x.value))
  }

  function YearError(year: Option<int>): Exception
  {
    ValueError("Illegal value for year: " + ShowOptionalInt(year))
  }

  function TeamCodeError(code: Option<string>): Exception
  {
    ValueError("Illegal value for team_name_1: " + ShowOptionalStr(code))
  }

  /** Lines 105-112: the season must lie in 2001..2024 and the first team code
      must have exactly three characters, checked in that order; the second
      code is never checked and defaults to the first. */
  function ValidateGameSearch(year: Option<int>, team1: Option<string>, team2: Option<string>): (r: Result<GameQuery>)
    ensures r.Success? <==> year.Some? && 2001 <= year.value <= 2024 && team1.Some? && |team1.value| == 3
    ensures r.Success? ==>
      && r.value.year == year.value
      && r.value.teamCode1 == team1.value
      && r.value.teamCode2 == (if team2.Some? then team2.value else team1.value)
    ensures (year.None? || !(2001 <= year.value <= 2024)) ==> r == Failure(YearError(year))
    ensures r.Failure? && year.Some? && 2001 <= year.value <= 2024 ==> r == Failure(TeamCodeError(team1))
  {
    if year.None? || year.value <= 2000 || year.value > 2024 then
      Failure(YearError(year))
    else if team1.None? || |team1.value| != 3 then
      Failure(TeamCodeError(team1))
    else
      Success(GameQuery(year.value, team1.value, if team2.None? then team1.value else team2.value))
  }

  /** The fixed part of the query, up to the team conditions. */
  const GAME_SELECT :=
    "\n"
    + "        select game_id, game_date, game_time,\n"
    + "            t_home.team_code t_home_code, t_home.team_location t_home_location, t_home.team_name t_home_name,\n"
    + "            t_visitor.team_code t_visitor_code, t_visitor.team_location t_visitor_location, t_visitor.team_name t_visitor_name,\n"
    + "            score_visitor, score_home,\n"
    + "            (select count(*) from game_play where game_play.game_id = game.game_id) num_plays\n"
    + "        from game, team t_home, team t_visitor\n"
    + "        where game.team_home = t_home.team_code\n"
    + "        and date_part('year', game_date) = t_home.season_year\n"
    + "        and game.team_visiting = t_visitor.team_code\n"
    + "        and date_part('year', game_date) = t_visitor.season_year\n"

  /** A game involving the team, at home or visiting (code interpolated raw). */
  function TeamCondition(code: string): string
  {
    "        and (game.team_home = '" + code + "' or game.team_visiting = '" + code + "')\n"
  }

  /** Lines 115-130: the SQL text of the search. */
  function GameSql(q: GameQuery): string
  {
    GAME_SELECT
    + TeamCondition(q.teamCode1)
    + TeamCondition(q.teamCode2)
    + "        and date_part('year', game_date) = " + IntToString(q.year) + "\n"
    + "        order by game_date desc\n"
    + "        "
  }

  /** Leaving out the second team searches the first team's games: both team
      conditions of the query name the first team. */
  lemma OmittedSecondTeam(year: Option<int>, team1: Option<string>)
    requires ValidateGameSearch(year, team1, None).Success?
    ensures ValidateGameSearch(year, team1, None) == ValidateGameSearch(year, team1, team1)
    ensures var q := ValidateGameSearch(year, team1, None).value;
      GameSql(q) == GAME_SELECT + TeamCondition(team1.value) + TeamCondition(team1.value)
        + "        and date_part('year', game_date) = " + IntToString(year.value) + "\n"
        + "        order by game_date desc\n"
        + "        "
  {
  }

  /** A query row: game_id, game_date, game_time, the home team's code,
      location and name, the visitors' code, location and name,
      score_visitor, score_home and num_plays. */
  type GameRow = r: Row | |r| == 12 witness seq(12, _ => PyNone)

  /** The dictionary the search returns per game. */
  datatype GameRecord = GameRecord(visitors: Value, home: Value, score: string, playCount: Value)

  /** The score text: the visitors' score, a dash, the home score, each as `str()` shows it. */
  function Score(visitor: Value, home: Value): string
  {
    Show(visitor) + "-" + Show(home)
  }

  function GameRecordOf(row: GameRow): GameRecord
  {
    GameRecord(row[6], row[3], Score(row[9], row[10]), row[11])
  }

  /** The position of the first `-` in `s`, or `|s|`. */
  function IndexOfDash(s: string): (k: nat)
    ensures k <= |s|
    ensures k < |s| ==> s[k] == '-'
    ensures forall j :: 0 <= j < k ==> s[j] != '-'
  {
    if |s| == 0 then 0
    else if s[0] == '-' then 0
    else 1 + IndexOfDash(s[1..])
  }

  /** Reads a score string back: visitor runs, then home runs. */
  function ParseScore(s: string): Option<(nat, nat)>
  {
    var k := IndexOfDash(s);
    if 0 < k && k + 1 < |s| && AllDigits(s[..k]) && AllDigits(s[k + 1..]) then
      Some((ParseNat(s[..k]), ParseNat(s[k + 1..])))
    else None
  }

  /** A score of two whole run counts reads back as (visitor, home): the
      visitors' runs come first. */
  lemma ScoreRoundTrip(visitor: nat, home: nat)
    ensures ParseScore(Score(PyInt(visitor), PyInt(home))) == Some((visitor, home))
  {
    var v, h := NatToString(visitor), NatToString(home);
    assert Show(PyInt(visitor)) == v && Show(PyInt(home)) == h;
    var rest := "-" + h;
    var s := v + rest;
    assert Score(PyInt(visitor), PyInt(home)) == s;
    DashAfterDigits(v, rest);
    var k := |v|;
    assert s[..k] == v;
    assert s[k + 1..] == h;
    ParseNatToString(visitor);
    ParseNatToString(home);
    assert ParseScore(s) == Some((ParseNat(v), ParseNat(h)));
  }

  lemma {:induction false} DashAfterDigits(digits: string, rest: string)
    requires AllDigits(digits) && |rest| > 0 && rest[0] == '-'
    ensures IndexOfDash(digits + rest) == |digits|
    decreases |digits|
  {
    if |digits| > 0 {
      assert (digits + rest)[1..] == digits[1..] + rest;
      DashAfterDigits(digits[1..], rest);
    } else {
      assert digits + rest == rest;
    }
  }

  /** The `search_mlb_games` tool. Invalid parameters are refused before the
      configuration is read or the database reached; otherwise one summary
      per row, in cursor order. */
  method SearchMlbGames(year: Option<int>, team1: Option<string>, team2: Option<string>, env: Env, db: Database<GameRow>)
    returns (r: Result<seq<GameRecord>>)
    ensures ValidateGameSearch(year, team1, team2).Failure? ==> r == Failure(ValidateGameSearch(year, team1, team2).error)
    ensures ValidateGameSearch(year, team1, team2).Success? && ENV_DB_CONNECTION_STRING !in env ==>
      r == Failure(MISSING_CONNECTION_STRING)
    ensures ValidateGameSearch(year, team1, team2).Success? && ENV_DB_CONNECTION_STRING in env ==>
      var rows := db(env[ENV_DB_CONNECTION_STRING], GameSql(ValidateGameSearch(year, team1, team2).value));
      && r.Success?
      && |r.value| == |rows|
      && forall i :: 0 <= i < |rows| ==> r.value[i] == GameRecordOf(rows[i])
  {
    var query := ValidateGameSearch(year, team1, team2);
    if query.Failure? {
      return Failure(query.error);
    }
    var sql := GameSql(query.value);
    var connection := ConnectionString(env);
    if connection.Failure? {
      return Failure(connection.error);
    }
    var rows := db(connection.value, sql);
    var results: seq<GameRecord> := [];
    for i := 0 to |rows|
      invariant |results| == i
      invariant forall k :: 0 <= k < i ==> results[k] == GameRecordOf(rows[k])
    {
      var record := rows[i];
      var homeCode := record[3];
      var visitorCode := record[6];
      var scoreVisitor := record[9];
      var scoreHome := record[10];
      var numPlays := record[11];
      results := results + [GameRecord(visitorCode, homeCode, Show(scoreVisitor) + "-" + Show(scoreHome), numPlays)];
    }
    return Success(results);
  }

  const MISSING_SCHEDULE_PARAMETERS := ValueError("No parameters provided to get_schedule_and_record!")

  /** One row of the schedule data frame the library returns. */
  datatype ScheduleGame = ScheduleGame(date: string, opponent: Value, homeAway: Value, winLoss: Value, runs: Value, runsAllowed: Value)

  /** What the library call does: return a data frame or raise. */
  datatype Fetched = Frame(games: seq<ScheduleGame>) | Raised(error: Exception)

  /** The dictionary the tool returns per game, before the date is reparsed
      and the runs are formatted. */
  datatype ScheduleRecord = ScheduleRecord(dateText: string, opponent: Value, homeAway: Value, winLoss: Value, runs: Value, runsAllowed: Value)

  /** Line 58: the double-header markers ` (1)` and ` (2)` removed from a date. */
  function StripDoubleHeader(date: string): string
  {
    RemoveAll(RemoveAll(date, " (1)"), " (2)")
  }

  /** A date without a parenthesis is left as it is. */
  lemma StripPlainDate(date: string)
    requires '(' !in date
    ensures StripDoubleHeader(date) == date
  {
    RemoveAllWithout(date, " (1)");
    RemoveAllWithout(date, " (2)");
  }

  /** The marker of either game of a double header comes off, leaving the date. */
  lemma StripDoubleHeaderMarker(date: string, game: char)
    requires '(' !in date && (game == '1' || game == '2')
    ensures StripDoubleHeader(date + " (" + [game] + ")") == date
  {
    var marker := " (" + [game] + ")";
    assert date + " (" + [game] + ")" == date + marker;
    RemoveAllAfter(date, marker, " (1)");
    RemoveAllAfter(date, marker, " (2)");
    if game == '1' {
      assert RemoveAll(marker, " (1)") == RemoveAll("", " (1)") == "";
      assert RemoveAll(date + marker, " (1)") == date + "" == date;
      RemoveAllWithout(date, " (2)");
    } else {
      assert RemoveAll(marker, " (1)") == [' '] + RemoveAll(marker[1..], " (1)") == marker;
      assert RemoveAll(marker, " (2)") == "";
    }
  }

  function ScheduleRecordOf(game: ScheduleGame): ScheduleRecord
  {
    ScheduleRecord(StripDoubleHeader(game.date), game.opponent, game.homeAway, game.winLoss, game.runs, game.runsAllowed)
  }

  /** The `get_schedule_and_record` tool. Both parameters are required; a
      `ValueError` from the library becomes an empty result, any other
      exception propagates; otherwise one record per game, in frame order. */
  method GetScheduleAndRecord(year: Option<int>, teamCode: Option<string>, fetch: (int, string) -> Fetched)
    returns (r: Result<seq<ScheduleRecord>>)
    ensures year.None? || teamCode.None? ==> r == Failure(MISSING_SCHEDULE_PARAMETERS)
    ensures year.Some? && teamCode.Some? ==>
      match fetch(year.value, teamCode.value)
      case Raised(e) => r == if e.ValueError? then Success([]) else Failure(e)
      case Frame(games) =>
        && r.Success?
        && |r.value| == |games|
        && forall i :: 0 <= i < |games| ==> r.value[i] == ScheduleRecordOf(games[i])
  {
    if teamCode.None? || year.None? {
      return Failure(MISSING_SCHEDULE_PARAMETERS);
    }
    var data := fetch(year.value, teamCode.value);
    if data.Raised? {
      if data.error.ValueError? {
        return Success([]);
      }
      return Failure(data.error);
    }
    var games := data.games;
    var results: seq<ScheduleRecord> := [];
    for i := 0 to |games|
      invariant |results| == i
      invariant forall k :: 0 <= k < i ==> results[k] == ScheduleRecordOf(games[k])
    {
      var game := games[i];
      var dateText := RemoveAll(RemoveAll(game.date, " (1)"), " (2)");
      results := results + [ScheduleRecord(dateText, game.opponent, game.homeAway, game.winLoss, game.runs, game.runsAllowed)];
    }
    return Success(results);
  }
}
