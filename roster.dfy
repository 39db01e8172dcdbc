/** The roster client and its cache: `RosterAPI` fetches a team's current
    roster and checks it has its three position groups; `RosterData` fills a
    single slot on first use and serves it from then on. */
module Roster {
  import opened Wrappers
  import opened Json
  import opened Web

  const RosterPath: string := "v1/roster/"
  const CurrentSuffix: string := "/current"

  /** The keys a roster response must have, in the order they are checked. */
  const RosterKeys: seq<string> := ["forwards", "goalies", "defensemen"]

  function MissingKeyMessage(key: string): string
  {
    "Invalid response, missing key " + key + " in response"
  }

  function FetchRosterMessage(team: string): string
  {
    "Error pulling " + team + " team roster "
  }

  /** The URL `get_current_roster` requests. */
  function RosterUrl(baseUrl: string, team: string): string
  {
    baseUrl + RosterPath + team + CurrentSuffix
  }

  /** The team a roster URL was built for. */
  function TeamOfRosterUrl(baseUrl: string, url: string): Option<string>
  {
    Between(baseUrl + RosterPath, CurrentSuffix, url)
  }

  /** A roster URL starts with the base URL, ends with `team + "/current"`,
      and gives its team back. */
  lemma RosterUrlRoundTrip(baseUrl: string, team: string)
    ensures var url := RosterUrl(baseUrl, team);
            |baseUrl| + |team + CurrentSuffix| <= |url| &&
            url[..|baseUrl|] == baseUrl &&
            url[|url| - |team + CurrentSuffix|..] == team + CurrentSuffix &&
            TeamOfRosterUrl(baseUrl, url) == Some(team)
  {
  }

  lemma RosterUrlInjective(baseUrl: string, a: string, b: string)
    requires RosterUrl(baseUrl, a) == RosterUrl(baseUrl, b)
    ensures a == b
  {
    RosterUrlRoundTrip(baseUrl, a);
    RosterUrlRoundTrip(baseUrl, b);
  }

  /** `RosterAPI.valid_data` as written: on a missing key it calls the integer
      `logging.ERROR` as if it were a function, so it raises a TypeError and
      the ValueError naming the key is never reached. */
  function ValidDataAsWritten(response: Value, key: string): (r: Outcome<Error>)
    ensures r.Pass? <==> Contains(response, key) == Success(true)
    ensures r.Fail? ==> r.error == TypeError
  {
    match Contains(response, key)
    case Success(found) => if found then Pass else Fail(TypeError)
    case Failure(e) => Fail(e)
  }

  /** `RosterAPI.valid_data` as intended: passes exactly when `key in
      response`, and a missing key raises the ValueError that names it. */
  function ValidData(response: Value, key: string): (r: Outcome<Error>)
    ensures r.Pass? <==> Contains(response, key) == Success(true)
    ensures response.Obj? ==> (r.Pass? <==> key in response.fields)
    ensures r == Fail(TypeError) <==> !Iterable(response)
    ensures r == Fail(ValueError(MissingKeyMessage(key))) <==> Contains(response, key) == Success(false)
  {
    match Contains(response, key)
    case Success(found) => if found then Pass else Fail(ValueError(MissingKeyMessage(key)))
    case Failure(e) => Fail(e)
  }

  /** The error messages name their key, so distinct keys give distinct errors. */
  lemma MissingKeyMessageInjective(a: string, b: string)
    requires MissingKeyMessage(a) == MissingKeyMessage(b)
    ensures a == b
  {
    var prefix := "Invalid response, missing key ";
    var suffix := " in response";
    BetweenConcat(prefix, a, suffix);
    BetweenConcat(prefix, b, suffix);
  }

  /** On an empty response both versions raise, but the one as written raises
      the same TypeError whichever key is missing, so the caller cannot tell
      which group the roster lacked; the intended one names `forwards`. */
  lemma AsWrittenHidesMissingKey()
    ensures ValidDataAsWritten(Obj(map[]), "forwards") == Fail(TypeError)
    ensures ValidDataAsWritten(Obj(map[]), "forwards") == ValidDataAsWritten(Obj(map[]), "goalies")
    ensures ValidData(Obj(map[]), "forwards") == Fail(ValueError(MissingKeyMessage("forwards")))
    ensures ValidData(Obj(map[]), "forwards") != ValidData(Obj(map[]), "goalies")
  {
    if ValidData(Obj(map[]), "forwards") == ValidData(Obj(map[]), "goalies") {
      MissingKeyMessageInjective("forwards", "goalies");
    }
  }

  /** The key checks of `get_current_roster`, run in order: the first failing
      check raises and the later keys are not examined. */
  function CheckKeys(response: Value, keys: seq<string>): (r: Outcome<Error>)
    ensures r.Pass? <==> forall i :: 0 <= i < |keys| ==> Contains(response, keys[i]) == Success(true)
  {
    if keys == [] then Pass
    else
      match ValidData(response, keys[0])
      case Fail(e) => Fail(e)
      case Pass => CheckKeys(response, keys[1..])
  }

  /** On a dict, a failed check names the first key, in check order, that the
      response lacks; every key before it is present. */
  lemma {:induction false} CheckKeysFirstMissing(response: Value, keys: seq<string>)
    requires response.Obj? && CheckKeys(response, keys).Fail?
    ensures exists i :: 0 <= i < |keys| && keys[i] !in response.fields &&
                        (forall j :: 0 <= j < i ==> keys[j] in response.fields) &&
                        CheckKeys(response, keys).error == ValueError(MissingKeyMessage(keys[i]))
  {
    if keys[0] !in response.fields {
      assert 0 < |keys| && keys[0] !in response.fields;
    } else {
      CheckKeysFirstMissing(response, keys[1..]);
      var i :| 0 <= i < |keys[1..]| && keys[1..][i] !in response.fields &&
               (forall j :: 0 <= j < i ==> keys[1..][j] in response.fields) &&
               CheckKeys(response, keys[1..]).error == ValueError(MissingKeyMessage(keys[1..][i]));
      assert keys[i + 1] !in response.fields;
      assert forall j :: 0 <= j < i + 1 ==> keys[j] in response.fields by {
        forall j | 0 <= j < i + 1 ensures keys[j] in response.fields {
          if j > 0 {
            assert keys[j] == keys[1..][j - 1];
          }
        }
      }
    }
  }

  /** The key checks of `get_current_roster` as written, in order, each
      with the as-written `valid_data`. */
  function CheckKeysAsWritten(response: Value, keys: seq<string>): (r: Outcome<Error>)
    ensures r.Pass? <==> forall i :: 0 <= i < |keys| ==> Contains(response, keys[i]) == Success(true)
    ensures r.Fail? ==> r.error == TypeError
  {
    if keys == [] then Pass
    else
      match ValidDataAsWritten(response, keys[0])
      case Fail(e) => Fail(e)
      case Pass => CheckKeysAsWritten(response, keys[1..])
  }

  /** As written, a response passes the ordered checks exactly when every key
      is present, and otherwise fails with the same TypeError, naming no key,
      whichever key is missing. */
  lemma {:induction false} CheckKeysAsWrittenHidesKey(response: Value, keys: seq<string>)
    ensures CheckKeysAsWritten(response, keys) ==
            if forall i :: 0 <= i < |keys| ==> Contains(response, keys[i]) == Success(true)
            then Pass else Fail(TypeError)
  {
    if keys != [] {
      CheckKeysAsWrittenHidesKey(response, keys[1..]);
      assert forall i :: 1 <= i < |keys| ==> keys[i] == keys[1..][i - 1];
    }
  }

  /** As written, a dict roster missing any group makes `get_current_roster`
      raise a TypeError; only `{}` is needed to see it. */
  lemma MissingGroupAsWrittenExample()
    ensures CheckKeysAsWritten(Obj(map[]), RosterKeys) == Fail(TypeError)
  {
    CheckKeysAsWrittenHidesKey(Obj(map[]), RosterKeys);
    assert Contains(Obj(map[]), RosterKeys[0]) == Success(false);
  }

  /** The roster checks are `forwards`, then `goalies`, then `defensemen`;
      the first that fails decides the outcome. */
  lemma RosterChecksInOrder(response: Value)
    ensures CheckKeys(response, RosterKeys) ==
            if ValidData(response, "forwards").Fail? then ValidData(response, "forwards")
            else if ValidData(response, "goalies").Fail? then ValidData(response, "goalies")
            else ValidData(response, "defensemen")
  {
    var rest := RosterKeys[1..];
    assert rest == ["goalies", "defensemen"];
    assert rest[1..] == ["defensemen"];
    assert rest[1..][1..] == [];
    assert CheckKeys(response, ["defensemen"]) == ValidData(response, "defensemen");
    assert CheckKeys(response, rest) ==
           if ValidData(response, "goalies").Fail? then ValidData(response, "goalies")
           else ValidData(response, "defensemen");
  }

  /** A roster: a response with all three position groups. */
  predicate IsRoster(v: Value)
  {
    CheckKeys(v, RosterKeys).Pass?
  }

  /** What `RosterAPI.get_current_roster` returns for the transport's reply: a
      failed request is re-raised as a RuntimeError naming the team; a body is
      returned only if it has all three groups. */
  function RosterReply(team: string, reply: Reply): (r: Result<Value, Error>)
    ensures reply.RequestFailed? ==> r == Failure(RuntimeError(FetchRosterMessage(team)))
    ensures r.Success? <==> reply.Response? && IsRoster(reply.body)
    ensures r.Success? ==> r.value == reply.body
    ensures r.Success? ==> r.value.Obj? ==>
              "forwards" in r.value.fields && "goalies" in r.value.fields && "defensemen" in r.value.fields
  {
    match reply
    case RequestFailed => Failure(RuntimeError(FetchRosterMessage(team)))
    case Response(data) =>
      var check := CheckKeys(data, RosterKeys);
      RosterChecksInOrder(data);
      if check.Fail? then Failure(check.error) else Success(data)
  }

  /** A roster without `goalies` names `goalies` even when `defensemen` is
      missing too: the defensemen check is never reached. */
  lemma MissingGoaliesExample(forwards: Value)
    ensures RosterReply("NYR", Response(Obj(map["forwards" := forwards]))) ==
            Failure(ValueError(MissingKeyMessage("goalies")))
  {
    var body := Obj(map["forwards" := forwards]);
    assert "forwards" in body.fields && "goalies" !in body.fields;
    RosterChecksInOrder(body);
  }

  /** The concrete roster source: `RosterAPI`. */
  class RosterApi {
    const baseUrl: string
    const http: Transport

    constructor (baseUrl: string, http: Transport)
      ensures this.baseUrl == baseUrl && this.http == http
    {
      this.baseUrl := baseUrl;
      this.http := http;
    }

    /** `RosterAPI.get_current_roster`: one request, then the three key checks
        in order. */
    method GetCurrentRoster(team: string) returns (r: Result<Value, Error>)
      modifies http
      ensures http.requested == old(http.requested) + [RosterUrl(baseUrl, team)]
      ensures r == RosterReply(team, http.server(|old(http.requested)|, RosterUrl(baseUrl, team)))
    {
      var url := RosterUrl(baseUrl, team);
      var reply := http.Get(url);
      if reply.RequestFailed? {
        return Failure(RuntimeError(FetchRosterMessage(team)));
      }
      var data := reply.body;
      RosterChecksInOrder(data);
      var check := ValidData(data, "forwards");
      if check.Fail? {
        return Failure(check.error);
      }
      check := ValidData(data, "goalies");
      if check.Fail? {
        return Failure(check.error);
      }
      check := ValidData(data, "defensemen");
      if check.Fail? {
        return Failure(check.error);
      }
      r := Success(data);
    }
  }

  /** `RosterData`: a roster cache over a roster source. */
  class RosterData {
    const rosterApi: RosterApi
    var rosterData: Option<Value>

    /** The cached value, when there is one, is a roster with all three groups. */
    ghost predicate Valid()
      reads this
    {
      rosterData.Some? ==> IsRoster(rosterData.value)
    }

    constructor (rosterApi: RosterApi)
      ensures this.rosterApi == rosterApi && rosterData == None
      ensures Valid()
    {
      this.rosterApi := rosterApi;
      rosterData := None;
    }

    /** `RosterData.roster_data(team)`: fetches `team`'s roster only while the
        slot is empty. Once filled, the slot is never replaced: every later
        call returns the first roster, whatever `team` is, without a request. */
    method Roster(team: string) returns (r: Result<Value, Error>)
      requires Valid()
      modifies this, rosterApi.http
      ensures Valid()
      ensures old(rosterData).Some? ==>
                r == Success(old(rosterData).value) && rosterData == old(rosterData) &&
                rosterApi.http.requested == old(rosterApi.http.requested)
      ensures old(rosterData).None? ==>
                rosterApi.http.requested == old(rosterApi.http.requested) + [RosterUrl(rosterApi.baseUrl, team)] &&
                r == RosterReply(team, rosterApi.http.server(|old(rosterApi.http.requested)|, RosterUrl(rosterApi.baseUrl, team))) &&
                rosterData == (if r.Success? then Some(r.value) else None)
      ensures r.Success? ==> IsRoster(r.value)
    {
      if rosterData.None? {
        var fetched := rosterApi.GetCurrentRoster(team);
        if fetched.Failure? {
          return fetched;
        }
        rosterData := Some(fetched.value);
      }
      r := Success(rosterData.value);
    }
  }

  /** Asking for a second team after a successful first call returns the first
      team's roster and issues no request of its own. */
  method FirstRosterSticks(data: RosterData, team: string, other: string)
    returns (first: Result<Value, Error>, second: Result<Value, Error>)
    requires data.Valid() && data.rosterData.None?
    modifies data, data.rosterApi.http
    ensures first.Success? ==> second == first
    ensures first.Success? ==>
              data.rosterApi.http.requested == old(data.rosterApi.http.requested) + [RosterUrl(data.rosterApi.baseUrl, team)]
  {
    first := data.Roster(team);
    second := data.Roster(other);
  }
}
