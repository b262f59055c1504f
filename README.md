# farmOS-aggregator farm access and OAuth token lifecycle, in Dafny

This project models `backend/app/app/api/utils/farms.py` of the farmOS
aggregator. That file decides which farms a request may reach and manages each
farm's OAuth tokens:

- **Resolvers.** They turn the caller's `FarmAccess` and the request's
  `farm_url` / `farm_id` parameters into farms, or into the 404 ("Farm does not
  exist.") or 401 ("Not enough permissions to access this farm.") error.
- **`_save_token`.** It upserts a farm's token row.
- **`get_farm_client`.** It builds a farmOS client and records the farm's
  authorization health. It alerts the admins when configured to, and raises
  `ClientError` on failure.
- **`get_oauth_token`.** It performs the token request and reads the token
  response of the OAuth 2.0 authorization code grant (sections 4.1.3 and 5.1 of
  RFC 6749).
- **`admin_alert_email`.** It picks the alert recipients.

Modules, one per concern:

- `Common` (`common.dfy`): `Option` and the aggregator `Settings`.
- `Numerals` (`numerals.dfy`): Python's `str(int)` and `int(str)`. It proves
  that `int(str(n)) == n`.
- `Dict` (`dict.dfy`): a Python dict as an insertion-ordered association list.
  Assigning to a key overwrites it in place or appends it.
- `Farms` (`farms.dfy`): the farm record, `FarmAccess`, the table queries and
  the resolvers. All are pure functions over the farm table, given as a
  sequence in table order. The `get_*` / `get_active_*` twins are one function
  each, with an `activeOnly` flag.
- `Alerts` (`alerts.dfy`): `admin_alert_email` as a loop over the users.
- `FarmStore` (`store.dfy`): the class `FarmDb`. It holds the farm table, the
  token table (a map from farm id to token row) and the next token row id.
  `SaveToken` and `GetFarmClient` are its methods, and each states the whole
  new state.
- `OAuth` (`oauth.dfy`): `get_oauth_token`, split into the request builder and
  the response reader.

Foreign calls become inputs:

- **`farmOS(...)`** becomes a `ConnectOutcome`. It says whether the
  constructor succeeded. It also holds the refreshed token, if any, that the
  constructor handed to the `_save_token` callback.
- **`requests.post`** becomes an `HttpResponse`: a status and a decoded JSON
  object.
- **The clock** becomes `now`, in whole seconds.
- **The user table** becomes a sequence of users.

`FarmAccess.can_access_farm` lives in `app/schemas/token.py`, which is not
part of this model. `Farms.CanAccessFarm` takes it to grant every farm when
`all_farms` is set, and otherwise the farms in `farm_id_list`.

Three points of the code that are easy to misread:

- **Access error status.** The access error is HTTP 401
  (`farms.py:27-30`), although line 8 also imports `HTTP_403_FORBIDDEN`.
- **Combined resolver.** Both dependencies of `get_farms_url_or_list` are
  resolved before its body runs. So an error from the id list fails the
  request even when the URL resolved.
- **Alert send failures.** The alert loop sends to one recipient at a time. A
  failed send would stop it, but sends are foreign here.

## Model

| member | source | states |
|---|---|---|
| `Farms.StatusCode` | backend/app/app/api/utils/farms.py:27-35 | The resolvers' errors are 404 for a missing farm and 401 for a refused one. |
| `Farms.FindByUrl` | backend/app/app/api/utils/farms.py:45-47 | The URL lookup finds nothing exactly when no listed farm has that URL. Otherwise it returns a listed farm of the table with that URL. |
| `Farms.FindById` | backend/app/app/api/utils/farms.py:140-143 | The id lookup finds nothing exactly when no farm has that id. Otherwise it returns that farm, inactive ones included. |
| `Farms.Select` | backend/app/app/api/utils/farms.py:80-86 | The multi-farm queries return exactly the table's listed farms (active ones under `active=True`). When ids are given, only those with a requested id. |
| `Farms.FarmByUrl` | backend/app/app/api/utils/farms.py:38-71 | No URL gives no farm. An unknown URL gives 404. When every farm with that URL is inaccessible the result is an error, and the 401 arises only from such a farm. A successful result is a listed farm with that URL that the grant covers. |
| `Farms.FarmById` | backend/app/app/api/utils/farms.py:132-145 | 401 exactly when the id is not granted, whether or not it exists. 404 exactly when it is granted but absent. Otherwise the farm with that id. |
| `Farms.FarmsByIdList` | backend/app/app/api/utils/farms.py:74-129 | 401 exactly when some requested id is not granted. 404 exactly when all are granted and no listed farm has one of them. No list exactly when no ids are requested and the grant has neither flag nor list. Otherwise exactly the listed farms that were requested or granted. Every returned farm is accessible. |
| `Farms.UrlOrList` | backend/app/app/api/utils/farms.py:152-161 | A URL farm gives exactly that farm. Otherwise the result is exactly the id-list farms, or empty when there are none. |
| `Farms.FarmsUrlOrList` | backend/app/app/api/utils/farms.py:148-177 | The result succeeds exactly when both dependencies do. Every farm returned is in the table, listed and accessible. When the URL resolves but the id list fails, the id list's error (404 or 401) is the result. With a URL the result is exactly the farm the URL dependency resolved, a farm with that URL. Without one it is the id-list result, or empty. |
| `Farms.FarmByIdChecksAccessFirst` | backend/app/app/api/utils/farms.py:137-143 | Whether `get_farm_by_id` refuses does not depend on the farm table. |
| `Farms.FarmByUrlChecksExistenceFirst` | backend/app/app/api/utils/farms.py:44-51 | An unknown URL is 404 under any grant. |
| `Farms.FarmsByIdListChecksAllIdsFirst` | backend/app/app/api/utils/farms.py:90-95 | One inaccessible requested id makes the request 401, whatever the table holds. |
| `Farms.RestrictedGrantScenario` | backend/app/app/api/utils/farms.py:38-100 | With access to farm 1 only, ids [1, 2] give 401. Ids [1], or farm 1's URL alone, give exactly farm 1. |
| `Farms.UrlTakesPriorityScenario` | backend/app/app/api/utils/farms.py:154-161 | A URL naming farm 9 together with id list [5] gives exactly farm 9. |
| `FarmStore.Upsert` | backend/app/app/api/utils/farms.py:186-191 | Saving updates the farm's existing row in place, keeping its row id and creating nothing. Without a row it creates exactly one, with the next id. Other farms' rows are unchanged. |
| `FarmStore.UpsertWellFormed` | backend/app/app/api/utils/farms.py:186-191 | Saving keeps one token row per farm, with distinct row ids. |
| `FarmStore.UpsertIdempotent` | backend/app/app/api/utils/farms.py:181-191 | Saving the same token twice equals saving it once. |
| `FarmStore.UpsertLastWriterWins` | backend/app/app/api/utils/farms.py:181-191 | Two successive saves for one farm leave the second token, as if only it had been saved. |
| `FarmStore.SaveTokenPathAsWritten` | backend/app/app/api/utils/farms.py:181-191 | As written, a missing farm raises AttributeError. The "nothing written" branch is reached exactly with a farm and no session. An existing row is updated exactly when there is a session and the farm has a row, and a row is created exactly when there is a session and the farm has none. |
| `FarmStore.SaveTokenWithoutFarmFails` | backend/app/app/api/utils/farms.py:182-186 | `_save_token` as written fails without a farm instead of skipping the write. |
| `FarmStore.FarmDb.SaveToken` | backend/app/app/api/utils/farms.py:181-191 | With a session and a farm, the token table becomes `Upsert` of the old one. Otherwise nothing changes. The table stays well formed and the farm table is untouched. |
| `FarmStore.FarmDb.TokenOf` | backend/app/app/api/utils/farms.py:203 | A farm with a token row hands the client that row's token fields. A farm without one hands it an empty token. |
| `FarmStore.AfterConnect` | backend/app/app/api/utils/farms.py:220-226 | A connected farm becomes authorized with no error and is stamped accessed now. A failed one becomes unauthorized with the error text and keeps its last access. Identity, URL, active flag and scope never change. |
| `FarmStore.ConnectFarm` | backend/app/app/api/utils/farms.py:220-226 | Only the row of the farm being connected changes, and its id, URL and active flag stay. |
| `FarmStore.FarmDb.RecordConnect` | backend/app/app/api/utils/farms.py:220-226 | The farm table becomes `ConnectFarm` of the old one, the token table is untouched, and the table stays well formed. |
| `FarmStore.ConnectFarmKeepsIds` | backend/app/app/api/utils/farms.py:220-226 | Recording a client build keeps the farm ids unique and every farm present. |
| `FarmStore.AuthFailureMessage` | backend/app/app/api/utils/farms.py:224 | The alert text is the fixed prefix, then `str(farm.id)`, then `" - "`, then the error's repr followed by its text. |
| `FarmStore.AuthFailureMessageNamesFarm` | backend/app/app/api/utils/farms.py:224 | Two failure alerts with the same text are about the same farm id. |
| `FarmStore.FarmDb.GetFarmClient` | backend/app/app/api/utils/farms.py:195-229 | A client is returned exactly when construction succeeds. The client is built from the farm's URL and scope, the configured client id and secret, and the token stored before the call. On failure the result is `ClientError` with the error text. The farm table becomes `ConnectFarm` of the old one, and a refresh during construction is saved through `Upsert`. Alerts go out only on failure with `AGGREGATOR_ALERT_ALL_ERRORS` and e-mail enabled, and then to every superuser. |
| `Alerts.SuperuserAlerts` | backend/app/app/api/utils/farms.py:268-272 | The alerts are one per superuser, in user order, each addressed to that user's e-mail and carrying the message; users who are not superusers get none. |
| `Alerts.SuperuserAlertsAppend` | backend/app/app/api/utils/farms.py:270-272 | Alerts follow user order: the alerts for `a + b` are those for `a` followed by those for `b`. |
| `Alerts.AdminAlertEmail` | backend/app/app/api/utils/farms.py:265-272 | The loop sends nothing when e-mail is disabled. Otherwise it sends exactly `SuperuserAlerts` of the users, in order. |
| `OAuth.StatusCode` | backend/app/app/api/utils/farms.py:262 | Only the rejected exchange is the deliberate HTTP 400. |
| `OAuth.ToInt` | backend/app/app/api/utils/farms.py:256 | `int()` keeps a JSON integer and parses a numeral string. It turns `True` and `False` into 1 and 0. It fails on null and on arrays or objects. |
| `Numerals.ParseInt` | backend/app/app/api/utils/farms.py:256 | `int(s)` succeeds exactly on an optionally signed run of digits. The value is the digits' value, negated after a `-`. |
| `Numerals.IntToString` | backend/app/app/api/utils/farms.py:224 | `str(id)` is the canonical numeral: a `-` exactly for negative ids, then digits with no leading zero (a lone `0` aside). |
| `Numerals.IntToStringRoundTrip` | backend/app/app/api/utils/farms.py:224 | `int(str(id)) == id`. |
| `Numerals.IntToStringInjective` | backend/app/app/api/utils/farms.py:224 | Distinct ids are written as distinct numerals. |
| `OAuth.BuildTokenRequest` | backend/app/app/api/utils/farms.py:234-247 | The request goes to `<farm_url>/oauth2/token`. Its form holds `code`, `state`, `grant_type`, `client_id` and `redirect_uri`, in that order. The redirect URI is the caller's when given, else `<farm_url>/api/authorized`. Then comes `client_secret` exactly when one is given. |
| `OAuth.ReadTokenResponse` | backend/app/app/api/utils/farms.py:249-262 | Any status but 200 is the 400 error. A body with `expires_at` is returned as it is. Otherwise `expires_at = now + int(expires_in)` is appended. A missing or non-integer `expires_in` fails. |
| `OAuth.GetOAuthToken` | backend/app/app/api/utils/farms.py:232-262 | The request and the token outcome above, together. |
| `OAuth.TokenHasExpiry` | backend/app/app/api/utils/farms.py:255-258 | Every token returned carries `expires_at`, and every other field of the response reaches it unchanged. |

## Findings

| source | as written | input that shows it | evidently intended | confidence | as-written member | corrected member |
|---|---|---|---|---|---|---|
| backend/app/app/api/utils/farms.py:182-186 | `_save_token` logs and builds its token from `farm.id` before the `farm is not None` guard | `_save_token(token, db_session=session, farm=None)` raises AttributeError at line 182 | without a farm, nothing is written and nothing is raised, as the guard's comment says | high on the reading, low on impact (every caller passes a farm); not executed | `FarmStore.SaveTokenPathAsWritten` | `FarmStore.FarmDb.SaveToken` |

## Left out

- `requests.post` and the `farmOS(...)` constructor are foreign network calls. Their results are inputs (`HttpResponse`, `ConnectOutcome`).
- The database session and the `crud.*` accessors are replaced by the in-memory `FarmDb`.
  - `get_by_url` and `get_by_id` are taken to return the first match in table order.
  - The multi-farm queries are taken to filter in table order, with no paging.
  - The accessors' own failures are not modelled. Such a failure inside the `try` of `get_farm_client` would also end in `ClientError`.
- `crud.farm.update_is_authorized` is not shown. Marking a farm authorized is taken to clear `auth_error`.
- `FarmTokenBase.from_orm(None)` is taken to give an all-empty token (`EMPTY_TOKEN`).
- FastAPI `Depends`/`Query` wiring and `HTTPException` objects are not modelled. Parameters are explicit and errors are datatype values with their status codes; the `detail` strings are not carried.
- The `OAUTHLIB_INSECURE_TRANSPORT` environment change, logging and the e-mail send itself are side effects with no logic to state. The model returns the list of sends instead.
- `time.time()` is a float and `expires_at` is stored via `str(...)`. The model uses whole seconds and stores `JInt(now + expires_in)`.
- The Pydantic schemas (`FarmTokenCreate`, `FarmTokenBase`) are record construction. Their field validation is not modelled, and the token is the completed response dict.
- `OAuth.ToInt`: floats, surrounding whitespace, `_` digit separators and non-ASCII digits, all of which Python's `int()` accepts, are not modelled.
- `OAuth.ReadTokenResponse`: the body is a JSON object with distinct keys, as decoding produces. A body that is not JSON is the single error `BodyNotJson`.
- `FarmStore.FarmDb.GetFarmClient`: at most one token refresh through the callback during one construction is modelled.
- `FarmStore.FarmDb.GetFarmClient`: a failing alert send is not modelled. In the source it would skip the unauthorized update.
- The concurrent last-writer-wins race between simultaneous `_save_token` callbacks is left out as concurrency. Only sequential saves are modelled (`UpsertLastWriterWins`).
- `backend/app/app/db_models/farm.py` declares columns only. Its `is_authenticated` column does not match the fields the code uses. The farm record follows the fields used in `farms.py`.
- `FarmAccess.can_access_farm` and its fields are defined outside this model. Their meaning is the reading stated above.
