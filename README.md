# Strava activity client, modelled in Dafny

This project models `StravaClient`, the part of a personal Strava dashboard
that talks to the Strava API and cleans what it gets back. It has three parts:

- **Token lifecycle** (`strava_client.dfy`, module `Strava`). The client holds
  an optional credential (access token, refresh token, expiry) and the current
  refresh token. `_ensure_token` runs the OAuth 2.0 refresh-token grant
  (section 6 of RFC 6749) when no credential is held or the held one expires
  within 60 seconds. A granted response replaces the credential wholesale and
  adopts the rotated refresh token. A rejected response raises before any
  field is assigned, so the state stays as it was. The token endpoint is a
  function from the posted form to the answer, and the clock is an integer
  `now` argument.
- **Pagination** (`pagination.dfy`, module `Pagination`). This is the loop of
  `get_recent_activities`. It requests pages 1, 2, ... with the same
  `per_page` and the same headers. It stops on an empty page or once it holds
  at least `max_activities` records, and returns the first `max_activities`
  of them. A failed page raises (`FetchError`). The provider is a sequence of page responses.
  `StopsAt` says which page the loop stops at, and that page is unique
  (`StopsAtUnique`). A successful fetch returns exactly the first
  `max_activities` records of the provider's stream up to the first empty page
  (`FetchedIsStreamPrefix`).
- **Normalisation** (`normalise.dfy`, module `Normalise`). This is
  `activities_to_df`, a pure function from raw records (`map<string, Value>`)
  to a table of `Row`s. Each row keeps the renamed columns. It also carries
  `sport` resolved from `sport_type` or `type`, exact unit conversions in
  `real`, a missing elevation set to 0, calendar fields derived from the parsed
  start time, and a pace that is present exactly when the distance is positive
  and a moving time is known.

Behaviour of the code worth noting:

- The code keeps one row per input record, whether or not it has an `id`.
- An unparseable date string makes the date parser raise, so the whole
  conversion fails (`DateParseError`). It does not become a missing timestamp.
- With pages of 200, 200, 50 and 0 records and a bound of 300, the loop stops
  after the second page (it holds 400 records, which is at least 300). It
  returns 300 records without requesting a third page (`ExampleBound300`).
- `get_recent_activities` checks the token twice. The first check is line 65.
  The second is inside `_get_headers` on line 66. So one listing can post up to
  two grant requests.
- When some record has `sport_type` but none has `type`, the code calls
  `fillna(None)`, which pandas rejects. This is modelled as `FillValueMissing`.

## Model

| member | source | states |
|---|---|---|
| `Strava.StravaClient.constructor` | strava_client.py:22-26 | a new client holds the configured credentials and refresh token, and no access token |
| `Strava.Grant` | strava_client.py:28-45 | the refresh posts the form carrying the session's refresh token. A grant makes the credential the response's access token, refresh token and expiry, and adopts the returned refresh token. A rejection raises with its status and leaves the session as it was |
| `Strava.Check` | strava_client.py:47-50 | exactly one grant is posted when no credential is held or it expires at or before `now + 60`, and none otherwise. With no grant the session is unchanged. A check that does not raise leaves a credential held |
| `Strava.TwoChecks` | strava_client.py:47-50 | of two checks in a row: no grant when the token is good at both times. A second grant only when the first was granted a token that already expires at the second time, and it carries the rotated refresh token. A rejection leaves the session unchanged |
| `Strava.StravaClient.RefreshAccessToken` | strava_client.py:28-45 | the form posted, the new credential and refresh token, and the error are exactly those of `Grant` on the old state |
| `Strava.StravaClient.EnsureToken` | strava_client.py:47-50 | the grant posted (if any), the new state and the error are exactly those of `Check` on the old state |
| `Strava.StravaClient.GetHeaders` | strava_client.py:52-54 | the state after `Check`, then `Authorization: Bearer <access token>` for the credential it leaves, or its error |
| `Strava.StravaClient.GetRecentActivities` | strava_client.py:56-83 | runs `Check` at `now1` (line 65) and then at `now2` from the session the first leaves (line 66). The grants posted and the final state are those of the two checks. A rejected grant raises its `AuthError` with no page requested. Otherwise every page request carries the bearer header of the credential after the second check, and the pages requested and the result are those of the page loop |
| `Strava.RotationCarriesForward` | strava_client.py:30-45 | after a granted refresh, the next grant form carries the returned refresh token, with the same client id, secret and `refresh_token` grant type |
| `Pagination.FetchPages` | strava_client.py:68-83 | requests pages 1..k in order, each with the same `per_page` and headers. k is the stopping page of `StopsAt`: none when the bound is not positive, and none after an empty or failed page or once the bound is reached. Returns the first `max_activities` gathered records, or the failed page's status |
| `Pagination.Take` | strava_client.py:83 | `s[:n]` is a prefix of `s`: its first `min(n, len(s))` elements for `n >= 0`, and all but its last `-n` elements for negative `n` |
| `Pagination.StreamSplit` | strava_client.py:69-81 | while pages 1..n all have records, the provider's stream starts with the records of pages 1..n |
| `Pagination.FetchedIsStreamPrefix` | strava_client.py:68-83 | a successful fetch returns the first `max_activities` records of the concatenation of pages 1, 2, ... up to the first empty page, and nothing when `max_activities` is not positive |
| `Pagination.StopsAtUnique` | strava_client.py:71-81 | the number of pages requested is determined by the provider and the bound |
| `Pagination.ExampleBound1000` | strava_client.py:69-83 | pages of 200, 200, 50 and 0 records with a bound of 1000: four requests and 450 records |
| `Pagination.ExampleBound300` | strava_client.py:69-83 | the same pages with a bound of 300: two requests and 300 records |
| `Normalise.Kept` | strava_client.py:114-115 | the kept columns are exactly the new names of rename-table keys that some record carries |
| `Normalise.FirstUnparseable` | strava_client.py:122-124 | finds a rejected date string exactly when some record's start date is a string the parser rejects, and then returns the start date of the first such record in record order |
| `Normalise.ToRow` | strava_client.py:115-142 | `sport` is `sport_type` when present and non-null, else `type`. A missing elevation is 0. `distance_km * 1000` is the distance in metres and `moving_time_h * 3600` the moving time in seconds. Pace is present iff `distance_km > 0` and a moving time is known, and then pace × `distance_km` is the moving time in minutes. Date, year and month are missing exactly when the start time is, and otherwise are its truncations |
| `Normalise.ActivitiesToTable` | strava_client.py:86-144 | no records give an empty table. On success there is one row per record in input order, all four read columns exist, every date string parsed, and the columns are the kept renamed ones. It also means a `type` column exists whenever a `sport_type` column does, and the distance and moving-time columns hold no text. A failing conversion raises the error the code reaches first: `FillValueMissing` (line 119), then `KeyError("start_date_local")` (line 122), then `DateParseError` with the first rejected date string (line 123), then `KeyError`/`TypeError` for `distance_m` (line 133) and `moving_time_s` (line 134), then `KeyError("elev_gain_m")` (line 135) |
| `Normalise.ConversionSucceeds` | strava_client.py:118-135 | the converse: when none of the failure conditions hold, the conversion succeeds |
| `Normalise.RenamedColumns` | strava_client.py:94-115 | every rename-table column other than `sport`, `elev_gain_m` and `start_date_local` holds the record's value of the old key |
| `Normalise.SportFallback` | strava_client.py:117-119 | `sport_type` "TrailRun" with `type` "Run" gives "TrailRun". A missing or null `sport_type` with `type` "Ride" gives "Ride" |
| `Normalise.ScenarioRow` | strava_client.py:133-142 | a 5000 m, 1500 s run with null elevation becomes 5 km, 5/12 h, elevation 0 and pace 5 min/km |

## Left out

- HTTP: the POST and GET calls, timeouts, JSON decoding and the `KeyError` of a token response without the expected fields are not modelled. The token endpoint's answer is a `Granted` or `Rejected` value, and a page is `Page(records)` or `HttpError(status)`.
- The token endpoint is a deterministic function of the posted form. A provider that answers the same form differently on two calls is not modelled.
- The default arguments `max_activities=1000` and `per_page=200` (strava_client.py:58-59) are not modelled. `GetRecentActivities` and `FetchPages` take both as required parameters.
- `time.time()` is not called. Each token check takes an integer `now`, which stands for `int(time.time())`.
- `week` (`to_period("W").start_time`) is not modelled. It needs pandas calendar arithmetic.
- Parsing start dates is a foreign library call (`dateutil.parser.parse`). It is passed in as `parse`. A timestamp is a plain year, month, day and time of day, with no time zone.
- `pd.to_datetime` errors on mixed time zones are not modelled.
- `pd.json_normalize` flattening of nested objects is not modelled. A `Value` is a scalar, so nested keys never produce columns.
- DataFrame mechanics and NaN: a missing cell is `None` and numbers are exact `real`s. Floating-point rounding is not modelled.
- Record identity and deduplication across pages: the provider is a fixed sequence of pages, so concurrent provider-side writes are not modelled.
- `app.py`, the Streamlit dashboard, is not part of this model.
