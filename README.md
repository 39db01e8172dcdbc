# nhl-prophet: teams and roster clients, modelled in Dafny

This project models the logic at the core of the NHL data-retrieval
scripts, in `teams.py` and `roster.py`:

- the **season-year decoder** (`TeamsData.split_season_years` and
  `season_years_list`). A season is packed as one integer holding two years,
  so 20202021 means 2020-2021;
- the **teams client** `TeamsAPI`. It builds the teams URL and the per-team
  season URL, issues one GET per call, and checks that a teams response has
  a `data` key;
- the **teams cache** `TeamsData`. It has one slot that is filled on the
  first pull and replaced only on an explicit refresh. It also keeps a
  `df` slot holding the table built from the cached response (one row per
  team);
- the **roster client** `RosterAPI`. It builds the roster URL and checks
  `forwards`, `goalies` and `defensemen` in that order;
- the **roster cache** `RosterData`. Its slot is filled once and never
  replaced.

Modules: `Wrappers` (Option, Result, Outcome), `Json` (decoded JSON values,
the exceptions the core raises, Python's `in` and `[]` on them), `Web` (the
reply to a GET and the `Transport` that issues requests), `Seasons`, `Teams`
and `Roster`.

The network is a parameter. A `Web.Transport` is built from a function
`server(n, url)`, which gives the reply to its n-th request. That function
stands for the live service or for a test fake. `Transport.requested` records
every URL requested, so its length is the fetch count that the cache
contracts talk about. The abstract interfaces `ITeams` and `IRoster` each
have one implementation in the source, and the model has one class for each:
`TeamsApi` and `RosterApi`, each over an arbitrary `server`.

Exceptions are values of `Json.Error`. Four are named after their Python
class: `RuntimeError` for a failed request, `ValueError` for a failed check
(it carries the source's message), `TypeError` for one raised by the
interpreter, and `KeyError`. The fifth, `ShapeError`, is not a Python
exception: it stands in for whatever pandas does when asked to build a
table from a `data` value that is not a list.

Points of the code's behaviour worth knowing:

- `split_season_years` checks `len(str(date)) == 8`, so -9999999..-1000000
  are accepted too: the minus sign counts as a character.
- `pull_teams` builds its URL from its own default `teams_url`
  (`https://api.nhle.com/`), not from the client's base URL. The season URL
  is `base_url + end_point + triCode`, with no separator added.
- Two consecutive `pull_teams()` calls fetch at most once only when the
  first succeeds. A failed first call leaves the slot empty, so the second
  call fetches again (`Teams.PullTwice`).
- A teams response passes validation whenever `'data' in response` holds.
  With Python's `in`, that includes a list holding the string `"data"` and
  a string containing it. Such a response is cached, and `pull_teams_df`
  then fails on `result['data']` with a TypeError. `Json.Contains` models
  `in` for dicts, lists and strings.

## Model

| member | source | states |
|---|---|---|
| `Json.ContainsThenSubscript` | teams.py:177-178 | `in` succeeds exactly on dicts, lists and strings; on a dict, a present key subscripts to its value and a missing one raises KeyError |
| `Web.Transport.Get` | teams.py:79-81 | one GET appends its URL to the request log and returns the server's reply for that request number |
| `Seasons.ShowNatLength` | teams.py:192 | the decimal text of n has at most k digits exactly when n < 10^k |
| `Seasons.ShowLengthEight` | teams.py:192 | `len(str(date)) == 8` exactly on the 8-digit numbers and the negated 7-digit numbers |
| `Seasons.SplitSeasonYears` | teams.py:181-194 | accepted exactly when the text of the date is 8 characters, otherwise ValueError with the source's message; on acceptance start*10000 + end == date and 0 <= end < 10000; a positive date gives a 4-digit start year |
| `Seasons.PackRoundTrip` | teams.py:194 | decoding undoes packing for every season whose end fits in four digits and whose packed form is accepted |
| `Seasons.SplitRoundTrip` | teams.py:194 | packing undoes decoding for every accepted date |
| `Seasons.SeasonExample` | test_teams.py:14-17 | 20202021 decodes to start 2020, end 2021 |
| `Seasons.NegativeSevenDigitsAccepted` | teams.py:192-194 | -1234567 is accepted and decodes to (-124, 5433) |
| `Seasons.WrongLengthsRejected` | teams.py:192-193 | 2020 and 202020211 raise ValueError |
| `Seasons.SeasonYearsList` | teams.py:196-200 | returns a list exactly when every date is accepted; the list has the input's length and element i is the decoding of date i; otherwise the ValueError |
| `Teams.DefaultTeamsUrlIs` | teams.py:63-76 | with its defaults `pull_teams` requests `https://api.nhle.com/stats/rest/en/team` |
| `Teams.DefaultSeasonUrlIs` | teams.py:91-102 | with its default endpoint `pull_team_season` requests `base_url + 'v1/roster-season/' + triCode` |
| `Teams.TeamSeasonUrlRoundTrip` | teams.py:102 | the season URL starts with the base URL and the team code can be recovered from it |
| `Teams.TeamSeasonUrlInjective` | teams.py:102 | distinct team codes give distinct season URLs |
| `Teams.ValidResponse` | teams.py:47-60 | passes exactly when `key in response`; a missing key raises ValueError, a response that `in` cannot search raises TypeError |
| `Teams.TeamsReply` | teams.py:76-86 | a failed request becomes RuntimeError; a body is returned unchanged exactly when it passes the `data` check; a dict without `data` raises ValueError |
| `Teams.SeasonsReply` | teams.py:102-110 | the body is returned unvalidated; a failed request becomes RuntimeError naming the team |
| `Teams.TeamsApi.constructor` | teams.py:37-45 | the client keeps its base URL and transport |
| `Teams.TeamsApi.PullTeams` | teams.py:62-86 | exactly one request, to `teams_url + end_point`, and the result is what `TeamsReply` gives for the reply |
| `Teams.TeamsApi.PullTeamSeason` | teams.py:88-110 | exactly one request, to `base_url + end_point + triCode`, and the result is what `SeasonsReply` gives for the reply |
| `Teams.TeamsFrame` | teams.py:177-178 | the table exists exactly when the response is a dict whose `data` is a list, and then has one row per element, in order; a validated response never raises KeyError here |
| `Teams.FourTeamsExample` | teams.py:81-83 | a body with four teams under `data` is returned and gives a four-row table; a body without `data` raises ValueError |
| `Teams.TeamsData.constructor` | teams.py:115-124 | both slots start empty |
| `Teams.TeamsData.Df` | teams.py:126-139 | the `df` getter raises ValueError while `_df` is unset and otherwise returns the stored table |
| `Teams.TeamsData.SetDf` | teams.py:141-154 | after the setter the getter returns the stored value; the team slot is untouched |
| `Teams.TeamsData.PullTeams` | teams.py:156-168 | fetches exactly when the slot is empty or `refresh` is set, and then returns the source's result; otherwise returns the cached value with no request; on success the slot holds the returned value; an exception leaves the slot as it was; the cached value always passed the `data` check |
| `Teams.TeamsData.PullTeamsDf` | teams.py:170-179 | fetches only if the slot is empty; returns the table of the cached response and stores it in `_df`; an exception leaves `_df` as it was; never raises KeyError; the team slot ends as `pull_teams()` leaves it (unchanged when full, the fetched body after a successful fetch, still empty after a failed one) |
| `Teams.PullTwice` | teams.py:166-168 | after a successful first cached pull the second returns the same value and at most one fetch happened; a full slot means no fetch; a failed first pull means two fetches |
| `Teams.RefreshFetches` | teams.py:166-167 | a refresh fetches even when the slot is full |
| `Roster.RosterUrlRoundTrip` | roster.py:52 | the roster URL starts with the base URL, ends with `team + '/current'`, and gives its team back |
| `Roster.RosterUrlInjective` | roster.py:52 | distinct teams give distinct roster URLs |
| `Roster.ValidDataAsWritten` | roster.py:33-36 | as written: passes exactly when `key in response`, and every failure is a TypeError |
| `Roster.ValidData` | roster.py:33-36 | as intended: passes exactly when `key in response`; a missing key raises the ValueError that names it |
| `Roster.MissingKeyMessageInjective` | roster.py:36 | distinct keys give distinct ValueError messages |
| `Roster.AsWrittenHidesMissingKey` | roster.py:33-36 | on `{}` the as-written check raises the same TypeError for `forwards` and `goalies`, while the intended check names `forwards` |
| `Roster.CheckKeys` | roster.py:59-61 | the ordered checks pass exactly when every key is in the response |
| `Roster.RosterChecksInOrder` | roster.py:59-61 | `forwards` is checked first, then `goalies`, then `defensemen`, and the first failure decides |
| `Roster.CheckKeysAsWritten` | roster.py:59-61 | as written: the three ordered checks pass exactly when every key is in the response, and any failure is a TypeError |
| `Roster.CheckKeysAsWrittenHidesKey` | roster.py:33-36 | as written: the ordered checks pass exactly when every key is present and otherwise all fail with the same TypeError, naming no key |
| `Roster.MissingGroupAsWrittenExample` | roster.py:59-61 | as written: `{}` makes the ordered roster checks raise TypeError |
| `Roster.CheckKeysFirstMissing` | roster.py:59-61 | as intended (corrected `valid_data`): on a dict, a failed check names the first missing key in check order; every earlier key is present |
| `Roster.RosterReply` | roster.py:52-66 | as intended (corrected `valid_data`): a failed request becomes RuntimeError naming the team; a body is returned exactly when it has all three groups |
| `Roster.MissingGoaliesExample` | roster.py:59-61 | as intended (corrected `valid_data`): a body with only `forwards` raises the error naming `goalies`; `defensemen` is never examined |
| `Roster.RosterApi.constructor` | roster.py:30-31 | the client keeps its base URL and transport |
| `Roster.RosterApi.GetCurrentRoster` | roster.py:38-66 | as intended (corrected `valid_data`): exactly one request, to `base_url + 'v1/roster/' + team + '/current'`, then the three checks in order; the result is what `RosterReply` gives |
| `Roster.RosterData.constructor` | roster.py:71-79 | the slot starts empty |
| `Roster.RosterData.Roster` | roster.py:81-93 | as intended (corrected `valid_data`): fetches the requested team exactly when the slot is empty and stores a successful result; once filled, the slot is never replaced and every call returns the first roster, whatever the team, with no request; a returned roster always has all three groups |
| `Roster.FirstRosterSticks` | roster.py:91-93 | as intended (corrected `valid_data`): after a successful first call, a call for another team returns the first roster, and only the first team's URL was requested |

## Findings

| source | as written | input that shows it | evidently intended | confidence | as-written member | corrected member |
|---|---|---|---|---|---|---|
| roster.py:35 | `logging.ERROR(...)` calls the integer level constant, so a missing key raises TypeError ("'int' object is not callable") and the ValueError naming the key on line 36 is never reached | a response `{}` checked for `forwards` | raise `ValueError("Invalid response, missing key forwards in response")` (a `logging.error` call) | high; not executed | `Roster.ValidDataAsWritten` (shown by `Roster.AsWrittenHidesMissingKey` and `Roster.CheckKeysAsWrittenHidesKey`) | `Roster.ValidData` (with `Roster.CheckKeysFirstMissing`) |

The rest of the model uses the corrected `Roster.ValidData`.

## Left out

- HTTP and JSON decoding (`requests.get`, `raise_for_status`, `r.json()`) are replaced by the `server` parameter of `Web.Transport`. Any `RequestException` is one `RequestFailed` reply, and the RuntimeError message leaves out the text of the underlying exception.
- The `@lru_cache` memoization on `TeamsAPI.pull_teams`, `TeamsAPI.pull_team_season` and `RosterAPI.get_current_roster` is library behaviour and is not modelled: every call to a source issues one request. In the real program, a refresh after a successful pull gets the memoized value back without a request.
- Logging configuration and logging calls are I/O.
- pandas: `add_season`, DataFrame columns, and the setter's `isinstance(value, pd.DataFrame)` check are left out, because pandas is a library. A table is its sequence of rows.
- Teams.TeamsFrame: a `data` value that is not a list is reported as ShapeError. pandas would build a frame from a dict or from None, or raise its own ValueError for a scalar.
- File writing (`WriteTeamsDataLocal.raw_results`, `to_csv`, `set_up`, `RosterData.raw_data`) is filesystem I/O.
- The `__main__` demonstration blocks.
- globals.py, which defines the default base URL, is not part of this model. The base URL is a constructor argument.
- game_story.py, mongo_connect.py and skaters.py are not part of this model. They are I/O glue: game_story.py does not parse (a missing `+` at line 104), and mongo_connect.py fails on import (it uses `self` outside a class at line 40).
- JSON numbers are integers only; floats are not modelled.
- Seasons.SplitSeasonYears: the `isinstance(date, int)` check is enforced by Dafny's type. A Python bool would be rejected anyway, since `str(True)` has 4 characters.
- The interpreter's TypeError messages are not modelled.
- Concurrency is not modelled: the caches are single-threaded.
