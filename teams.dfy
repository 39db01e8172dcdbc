/** The teams client and its cache: `TeamsAPI` fetches the list of teams and
    the seasons one team played, and `TeamsData` keeps the last team list in
    a single slot, serving it until asked to refresh, and projects it into a
    table of one row per team. */
module Teams {
  import opened Wrappers
  import opened Json
  import opened Web

  /** Default arguments of `TeamsAPI.pull_teams` and `pull_team_season`. */
  const DefaultTeamsUrl: string := "https://api.nhle.com/"
  const TeamsEndPoint: string := "stats/rest/en/team"
  const SeasonEndPoint: string := "v1/roster-season/"

  /** The key every teams response must carry. */
  const DataKey: string := "data"

  const MissingKeyMessage: string := "Key not in data returned"
  const FetchTeamsMessage: string := "Error fetching team data: "
  const DfUnsetMessage: string := "df called before initialized. Please run the pull_teams"

  function FetchSeasonMessage(triCode: string): string
  {
    "Error fetching team " + triCode + " season: "
  }

  /** The URL `pull_teams` requests. */
  function TeamsUrl(teamsUrl: string, endPoint: string): string
  {
    teamsUrl + endPoint
  }

  /** The URL `pull_team_season` requests for one team. */
  function TeamSeasonUrl(baseUrl: string, endPoint: string, triCode: string): string
  {
    baseUrl + endPoint + triCode
  }

  /** The team code a season URL was built for. */
  function TriCodeOf(baseUrl: string, endPoint: string, url: string): Option<string>
  {
    Between(baseUrl + endPoint, "", url)
  }

  /** With its default arguments, `pull_teams` asks for the fixed teams endpoint. */
  lemma DefaultTeamsUrlIs()
    ensures TeamsUrl(DefaultTeamsUrl, TeamsEndPoint) == "https://api.nhle.com/stats/rest/en/team"
  {
  }

  /** With its default endpoint, `pull_team_season` asks for
      `base_url + "v1/roster-season/" + triCode`. */
  lemma DefaultSeasonUrlIs(baseUrl: string, triCode: string)
    ensures TeamSeasonUrl(baseUrl, SeasonEndPoint, triCode) == baseUrl + "v1/roster-season/" + triCode
  {
  }

  /** A season URL starts with the base URL and the endpoint, and the team
      code can be read back from it; so distinct teams get distinct URLs. */
  lemma TeamSeasonUrlRoundTrip(baseUrl: string, endPoint: string, triCode: string)
    ensures |baseUrl| <= |TeamSeasonUrl(baseUrl, endPoint, triCode)|
    ensures TeamSeasonUrl(baseUrl, endPoint, triCode)[..|baseUrl|] == baseUrl
    ensures TriCodeOf(baseUrl, endPoint, TeamSeasonUrl(baseUrl, endPoint, triCode)) == Some(triCode)
  {
    var url := TeamSeasonUrl(baseUrl, endPoint, triCode);
    assert url == (baseUrl + endPoint) + triCode + "";
    BetweenConcat(baseUrl + endPoint, triCode, "");
    assert url[..|baseUrl|] == baseUrl;
  }

  lemma TeamSeasonUrlInjective(baseUrl: string, endPoint: string, a: string, b: string)
    requires TeamSeasonUrl(baseUrl, endPoint, a) == TeamSeasonUrl(baseUrl, endPoint, b)
    ensures a == b
  {
    TeamSeasonUrlRoundTrip(baseUrl, endPoint, a);
    TeamSeasonUrlRoundTrip(baseUrl, endPoint, b);
  }

  /** `TeamsAPI.valid_response`: passes exactly when `key in response` holds;
      a missing key raises a ValueError, and a response Python's `in` cannot
      search raises a TypeError. */
  function ValidResponse(response: Value, key: string): (r: Outcome<Error>)
    ensures r.Pass? <==> Contains(response, key) == Success(true)
    ensures response.Obj? ==> (r.Pass? <==> key in response.fields)
    ensures r == Fail(TypeError) <==> !Iterable(response)
    ensures r == Fail(ValueError(MissingKeyMessage)) <==> Contains(response, key) == Success(false)
  {
    match Contains(response, key)
    case Success(found) => if found then Pass else Fail(ValueError(MissingKeyMessage))
    case Failure(e) => Fail(e)
  }

  /** A teams envelope: a response that passes the `data` check. */
  predicate IsTeamsResponse(v: Value)
  {
    Contains(v, DataKey) == Success(true)
  }

  /** What `TeamsAPI.pull_teams` returns for the transport's reply: a failed
      request is re-raised as a RuntimeError; a body without `data` fails
      validation; any other body is returned as it is. */
  function TeamsReply(reply: Reply): (r: Result<Value, Error>)
    ensures reply.RequestFailed? ==> r == Failure(RuntimeError(FetchTeamsMessage))
    ensures r.Success? <==> reply.Response? && IsTeamsResponse(reply.body)
    ensures r.Success? ==> r.value == reply.body
    ensures reply.Response? && reply.body.Obj? && DataKey !in reply.body.fields ==>
              r == Failure(ValueError(MissingKeyMessage))
  {
    match reply
    case RequestFailed => Failure(RuntimeError(FetchTeamsMessage))
    case Response(data) =>
      var check := ValidResponse(data, DataKey);
      if check.Fail? then Failure(check.error) else Success(data)
  }

  /** What `TeamsAPI.pull_team_season` returns: the decoded body, unvalidated,
      or a RuntimeError naming the team. */
  function SeasonsReply(triCode: string, reply: Reply): (r: Result<Value, Error>)
    ensures r.Success? <==> reply.Response?
    ensures r.Success? ==> r.value == reply.body
    ensures r.Failure? ==> r.error == RuntimeError(FetchSeasonMessage(triCode))
  {
    match reply
    case RequestFailed => Failure(RuntimeError(FetchSeasonMessage(triCode)))
    case Response(data) => Success(data)
  }

  /** The concrete teams source: `TeamsAPI`. */
  class TeamsApi {
    const baseUrl: string
    const http: Transport

    constructor (baseUrl: string, http: Transport)
      ensures this.baseUrl == baseUrl && this.http == http
    {
      this.baseUrl := baseUrl;
      this.http := http;
    }

    /** `TeamsAPI.pull_teams`: one request to `teamsUrl + endPoint`, then the
        `data` check. */
    method PullTeams(teamsUrl: string, endPoint: string) returns (r: Result<Value, Error>)
      modifies http
      ensures http.requested == old(http.requested) + [TeamsUrl(teamsUrl, endPoint)]
      ensures r == TeamsReply(http.server(|old(http.requested)|, TeamsUrl(teamsUrl, endPoint)))
    {
      var url := TeamsUrl(teamsUrl, endPoint);
      var reply := http.Get(url);
      match reply
      case RequestFailed =>
        r := Failure(RuntimeError(FetchTeamsMessage));
      case Response(data) =>
        var check := ValidResponse(data, DataKey);
        if check.Fail? {
          r := Failure(check.error);
        } else {
          r := Success(data);
        }
    }

    /** `TeamsAPI.pull_team_season`: one request to
        `baseUrl + endPoint + triCode`, returning the body unvalidated. */
    method PullTeamSeason(triCode: string, endPoint: string) returns (r: Result<Value, Error>)
      modifies http
      ensures http.requested == old(http.requested) + [TeamSeasonUrl(baseUrl, endPoint, triCode)]
      ensures r == SeasonsReply(triCode, http.server(|old(http.requested)|, TeamSeasonUrl(baseUrl, endPoint, triCode)))
    {
      var url := TeamSeasonUrl(baseUrl, endPoint, triCode);
      var reply := http.Get(url);
      match reply
      case RequestFailed =>
        r := Failure(RuntimeError(FetchSeasonMessage(triCode)));
      case Response(data) =>
        r := Success(data);
    }
  }

  /** A table: one row per element of the list it was built from. */
  datatype Table = Table(rows: seq<Value>)

  /** `pd.DataFrame(response['data'])`, rows only: subscripting a response
      that is not a dict raises a TypeError, a missing `data` a KeyError, and
      a `data` value that is not a list is reported as a ShapeError. */
  function TeamsFrame(response: Value): (r: Result<Table, Error>)
    ensures r.Success? <==> response.Obj? && DataKey in response.fields && response.fields[DataKey].Arr?
    ensures r.Success? ==> r.value.rows == response.fields[DataKey].items
    ensures IsTeamsResponse(response) ==> r != Failure(KeyError(DataKey))
  {
    match Subscript(response, DataKey)
    case Failure(e) => Failure(e)
    case Success(data) => if data.Arr? then Success(Table(data.items)) else Failure(ShapeError)
  }

  /** A mocked source returning four teams yields a four-row table, and one
      without `data` fails validation. */
  lemma FourTeamsExample(t1: Value, t2: Value, t3: Value, t4: Value)
    ensures var body := Obj(map[DataKey := Arr([t1, t2, t3, t4])]);
            TeamsReply(Response(body)) == Success(body) &&
            TeamsFrame(body).Success? && |TeamsFrame(body).value.rows| == 4
    ensures TeamsReply(Response(Obj(map["total" := Num(4)]))) == Failure(ValueError(MissingKeyMessage))
  {
  }

  /** Whether `TeamsData.pull_teams` consults its source. */
  predicate Fetches(slot: Option<Value>, refresh: bool)
  {
    slot.None? || refresh
  }

  /** `TeamsData`: the team list cache over a teams source, and its table. */
  class TeamsData {
    const teams: TeamsApi
    var teamsData: Option<Value>
    var frame: Option<Table>  // the `_df` slot behind the `df` property

    /** The cached value, when there is one, is a response that passed the
        `data` check: it is only ever stored from a successful fetch. */
    ghost predicate Valid()
      reads this
    {
      teamsData.Some? ==> IsTeamsResponse(teamsData.value)
    }

    constructor (teams: TeamsApi)
      ensures this.teams == teams && teamsData == None && frame == None
      ensures Valid()
    {
      this.teams := teams;
      teamsData := None;
      frame := None;
    }

    /** The `df` getter: raises a ValueError while `_df` is unset, and
        otherwise returns the last table stored. */
    function Df(): (r: Result<Table, Error>)
      reads this
      ensures r.Success? <==> frame.Some?
      ensures r.Success? ==> r.value == frame.value
      ensures r.Failure? ==> r.error == ValueError(DfUnsetMessage)
    {
      if frame.None? then Failure(ValueError(DfUnsetMessage)) else Success(frame.value)
    }

    /** The `df` setter: the getter returns `value` from now on. */
    method SetDf(value: Table)
      modifies this
      ensures frame == Some(value) && Df() == Success(value)
      ensures teamsData == old(teamsData)
    {
      frame := Some(value);
    }

    /** `TeamsData.pull_teams(refresh)`: calls the source exactly when the slot
        is empty or `refresh` is set, storing what it returns; otherwise
        returns the cached value without any request. A raising source leaves
        the slot as it was. */
    method PullTeams(refresh: bool) returns (r: Result<Value, Error>)
      requires Valid()
      modifies this, teams.http
      ensures Valid() && frame == old(frame)
      ensures Fetches(old(teamsData), refresh) ==>
                teams.http.requested == old(teams.http.requested) + [TeamsUrl(DefaultTeamsUrl, TeamsEndPoint)] &&
                r == TeamsReply(teams.http.server(|old(teams.http.requested)|, TeamsUrl(DefaultTeamsUrl, TeamsEndPoint)))
      ensures !Fetches(old(teamsData), refresh) ==>
                teams.http.requested == old(teams.http.requested) && r == Success(old(teamsData).value)
      ensures r.Success? ==> teamsData == Some(r.value)
      ensures r.Failure? ==> teamsData == old(teamsData)
    {
      if teamsData.None? || refresh {
        var fetched := teams.PullTeams(DefaultTeamsUrl, TeamsEndPoint);
        if fetched.Failure? {
          return fetched;
        }
        teamsData := Some(fetched.value);
      }
      r := Success(teamsData.value);
    }

    /** `TeamsData.pull_teams_df`: the table of the cached response (fetched
        only if the slot is empty), stored in `_df` and returned. Any exception
        leaves `_df` as it was. */
    method PullTeamsDf() returns (r: Result<Table, Error>)
      requires Valid()
      modifies this, teams.http
      ensures Valid()
      ensures old(teamsData).Some? ==>
                teams.http.requested == old(teams.http.requested) && r == TeamsFrame(old(teamsData).value)
      ensures old(teamsData).None? ==>
                teams.http.requested == old(teams.http.requested) + [TeamsUrl(DefaultTeamsUrl, TeamsEndPoint)] &&
                var fetched := TeamsReply(teams.http.server(|old(teams.http.requested)|, TeamsUrl(DefaultTeamsUrl, TeamsEndPoint)));
                r == (if fetched.Failure? then Failure(fetched.error) else TeamsFrame(fetched.value)) &&
                teamsData == (if fetched.Success? then Some(fetched.value) else None)
      ensures old(teamsData).Some? ==> teamsData == old(teamsData)
      ensures r.Success? ==> teamsData.Some? && TeamsFrame(teamsData.value) == r
      ensures r.Success? ==> frame == Some(r.value) && Df() == r
      ensures r.Failure? ==> frame == old(frame)
      ensures r != Failure(KeyError(DataKey))
    {
      var result := PullTeams(false);
      if result.Failure? {
        return Failure(result.error);
      }
      var table := TeamsFrame(result.value);
      if table.Failure? {
        return table;
      }
      SetDf(table.value);
      r := Df();
    }
  }

  /** Two consecutive cached pulls: the second never fetches once the first
      has succeeded, so a successful first call means at most one fetch in
      all and the same value twice. A failed first call leaves the slot
      empty, and the second call fetches again. */
  method PullTwice(data: TeamsData) returns (first: Result<Value, Error>, second: Result<Value, Error>)
    requires data.Valid()
    modifies data, data.teams.http
    ensures data.Valid()
    ensures first.Success? ==> second == first
    ensures first.Success? ==> |data.teams.http.requested| <= |old(data.teams.http.requested)| + 1
    ensures old(data.teamsData).Some? ==> data.teams.http.requested == old(data.teams.http.requested)
    ensures first.Failure? ==> |data.teams.http.requested| == |old(data.teams.http.requested)| + 2
  {
    first := data.PullTeams(false);
    second := data.PullTeams(false);
  }

  /** A refresh fetches even when the slot is full. */
  method RefreshFetches(data: TeamsData) returns (r: Result<Value, Error>)
    requires data.Valid() && data.teamsData.Some?
    modifies data, data.teams.http
    ensures |data.teams.http.requested| == |old(data.teams.http.requested)| + 1
  {
    r := data.PullTeams(true);
  }
}
