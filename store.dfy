/** The persistent state the farm utilities change: the farm table's health
    columns and the farm token table, with `_save_token` and
    `get_farm_client`. */
module FarmStore {
  import opened Common
  import opened Farms
  import Numerals
  import Alerts

  /** The token fields `_save_token` stores (a FarmTokenCreate without its
      farm id). */
  datatype TokenFields = TokenFields(
    accessToken: Option<string>,
    expiresIn: Option<string>,
    refreshToken: Option<string>,
    expiresAt: Option<string>
  )

  /** What `FarmTokenBase.from_orm` yields for a farm that has no token. */
  const EMPTY_TOKEN := TokenFields(None, None, None, None)

  /** A row of the farm token table. */
  datatype TokenRow = TokenRow(rowId: nat, farmId: int, fields: TokenFields)

  /** The token table, keyed by farm: each row belongs to the farm it is filed
      under, row ids are below the next free id and no two rows share one. */
  predicate TokensWellFormed(rows: map<int, TokenRow>, nextRowId: nat) {
    (forall k :: k in rows ==> rows[k].farmId == k && rows[k].rowId < nextRowId) &&
    (forall j, k :: j in rows && k in rows && j != k ==> rows[j].rowId != rows[k].rowId)
  }

  /** The effect of saving `fields` for a farm: `update_farm_token` on the
      farm's row when it has one, otherwise `create_farm_token` with the next
      row id. */
  function Upsert(rows: map<int, TokenRow>, nextRowId: nat, farmId: int, fields: TokenFields)
    : (r: (map<int, TokenRow>, nat))
    ensures r.0.Keys == rows.Keys + {farmId}
    ensures r.0[farmId].farmId == farmId && r.0[farmId].fields == fields
    ensures farmId in rows ==> r.0[farmId].rowId == rows[farmId].rowId && r.1 == nextRowId
    ensures farmId !in rows ==> r.0[farmId].rowId == nextRowId && r.1 == nextRowId + 1
    ensures forall k :: k in rows && k != farmId ==> r.0[k] == rows[k]
  {
    if farmId in rows then (rows[farmId := rows[farmId].(farmId := farmId, fields := fields)], nextRowId)
    else (rows[farmId := TokenRow(nextRowId, farmId, fields)], nextRowId + 1)
  }

  /** Saving keeps the token table well formed: still one row per farm, and
      a created row gets an id no other row has. */
  lemma UpsertWellFormed(rows: map<int, TokenRow>, nextRowId: nat, farmId: int, fields: TokenFields)
    requires TokensWellFormed(rows, nextRowId)
    ensures TokensWellFormed(Upsert(rows, nextRowId, farmId, fields).0, Upsert(rows, nextRowId, farmId, fields).1)
  {
  }

  /** Saving the same token twice leaves the table as saving it once. */
  lemma UpsertIdempotent(rows: map<int, TokenRow>, nextRowId: nat, farmId: int, fields: TokenFields)
    ensures var once := Upsert(rows, nextRowId, farmId, fields);
            Upsert(once.0, once.1, farmId, fields) == once
  {
    var once := Upsert(rows, nextRowId, farmId, fields);
    var twice := Upsert(once.0, once.1, farmId, fields);
    assert twice.0 == once.0;
  }

  /** Two saves for one farm in a row: the second token wins, and at most one
      row is ever created. */
  lemma UpsertLastWriterWins(rows: map<int, TokenRow>, nextRowId: nat, farmId: int,
                             first: TokenFields, second: TokenFields)
    ensures var once := Upsert(rows, nextRowId, farmId, first);
            Upsert(once.0, once.1, farmId, second) == Upsert(rows, nextRowId, farmId, second)
  {
    var once := Upsert(rows, nextRowId, farmId, first);
    var twice := Upsert(once.0, once.1, farmId, second);
    assert twice.0 == Upsert(rows, nextRowId, farmId, second).0;
  }

  /** The path `_save_token` takes as written. Line 182 reads `farm.id`
      before the guard of line 186, so a missing farm raises AttributeError
      instead of reaching the "nothing to save" case. */
  datatype SavePath = AttributeError | NoWrite | UpdateRow | CreateRow

  function SaveTokenPathAsWritten(hasSession: bool, farm: Option<int>, rows: map<int, TokenRow>)
    : (p: SavePath)
    ensures p == AttributeError <==> farm.None?
    ensures p == NoWrite <==> farm.Some? && !hasSession
    ensures p == UpdateRow <==> hasSession && farm.Some? && farm.value in rows
    ensures p == CreateRow <==> hasSession && farm.Some? && farm.value !in rows
  {
    if farm.None? then AttributeError
    else if !hasSession then NoWrite
    else if farm.value in rows then UpdateRow
    else CreateRow
  }

  /** The guard's `farm is not None` half never decides anything: without a
      farm the call has already failed. */
  lemma SaveTokenWithoutFarmFails(hasSession: bool, rows: map<int, TokenRow>)
    ensures SaveTokenPathAsWritten(hasSession, None, rows) == AttributeError
    ensures SaveTokenPathAsWritten(hasSession, None, rows) != NoWrite
  {
  }

  /** How a farm row changes when a client is built for it. */
  datatype ConnectOutcome =
    | Connected(refreshed: Option<TokenFields>)
    | ConnectFailed(refreshed: Option<TokenFields>, error: string, errorRepr: string)

  /** What the farmOS client is constructed with. */
  datatype ClientHandle = ClientHandle(
    hostname: string,
    clientId: string,
    clientSecret: string,
    scope: Option<string>,
    token: TokenFields
  )

  datatype ClientResult = Client(handle: ClientHandle) | ClientError(message: string)

  /** The farm's health columns after a client build. */
  function AfterConnect(f: Farm, outcome: ConnectOutcome, now: int): (g: Farm)
    ensures g.id == f.id && g.url == f.url && g.farmName == f.farmName
    ensures g.active == f.active && g.scope == f.scope
    ensures g.isAuthorized <==> outcome.Connected?
    ensures outcome.Connected? ==> g.authError.None? && g.lastAccessed == Some(now)
    ensures outcome.ConnectFailed? ==> g.authError == Some(outcome.error) && g.lastAccessed == f.lastAccessed
  {
    if outcome.Connected? then f.(lastAccessed := Some(now)).(isAuthorized := true, authError := None)
    else f.(isAuthorized := false, authError := Some(outcome.error))
  }

  /** The farm table with the row of `farmId` updated by `AfterConnect`. */
  function ConnectFarm(dir: seq<Farm>, farmId: int, outcome: ConnectOutcome, now: int): (r: seq<Farm>)
    ensures |r| == |dir|
    ensures forall i :: 0 <= i < |dir| ==>
      r[i].id == dir[i].id && r[i].url == dir[i].url && r[i].active == dir[i].active
    ensures forall i :: 0 <= i < |dir| && dir[i].id != farmId ==> r[i] == dir[i]
    ensures forall i :: 0 <= i < |dir| && dir[i].id == farmId ==> r[i] == AfterConnect(dir[i], outcome, now)
  {
    seq(|dir|, i requires 0 <= i < |dir| =>
      if dir[i].id == farmId then AfterConnect(dir[i], outcome, now) else dir[i])
  }

  /** Connecting rewrites health columns only, so the table keeps its ids. */
  lemma ConnectFarmKeepsIds(dir: seq<Farm>, farmId: int, outcome: ConnectOutcome, now: int)
    ensures UniqueIds(dir) ==> UniqueIds(ConnectFarm(dir, farmId, outcome, now))
    ensures forall id :: HasId(dir, id) ==> HasId(ConnectFarm(dir, farmId, outcome, now), id)
  {
  }

  /** The text of the alert sent when a client cannot be built. */
  const ALERT_PREFIX := "Cannot authenticate client with farmOS server id: "

  /** The alert text: the fixed prefix, the farm id as `str` writes it,
      `" - "`, then the error's repr and its text. */
  function AuthFailureMessage(farmId: int, outcome: ConnectOutcome): (m: string)
    requires outcome.ConnectFailed?
    ensures var id := Numerals.IntToString(farmId);
            |m| >= |ALERT_PREFIX| + |id| + 3 &&
            m[..|ALERT_PREFIX|] == ALERT_PREFIX &&
            m[|ALERT_PREFIX|..|ALERT_PREFIX| + |id|] == id &&
            m[|ALERT_PREFIX| + |id|..|ALERT_PREFIX| + |id| + 3] == " - " &&
            m[|ALERT_PREFIX| + |id| + 3..] == outcome.errorRepr + outcome.error
  {
    ALERT_PREFIX + Numerals.IntToString(farmId) + " - " + outcome.errorRepr + outcome.error
  }

  /** The alert names the farm unambiguously: two failure alerts with the
      same text are about the same farm. */
  lemma AuthFailureMessageNamesFarm(id1: int, id2: int, o1: ConnectOutcome, o2: ConnectOutcome)
    requires o1.ConnectFailed? && o2.ConnectFailed?
    requires AuthFailureMessage(id1, o1) == AuthFailureMessage(id2, o2)
    ensures id1 == id2
  {
    var m := AuthFailureMessage(id1, o1);
    var s1, s2 := Numerals.IntToString(id1), Numerals.IntToString(id2);
    var p := |ALERT_PREFIX|;
    // The numeral ends at the first space after the prefix, so both have one length.
    assert m[p + |s1|] == ' ' && m[p + |s2|] == ' ';
    if |s1| < |s2| {
      assert false;
    } else if |s2| < |s1| {
      assert false;
    }
    assert s1 == m[p..p + |s1|] == s2;
    Numerals.IntToStringInjective(id1, id2);
  }

  /** The database session: the farm table and the farm token table. */
  class FarmDb {
    var farms: seq<Farm>
    var tokens: map<int, TokenRow>
    var nextTokenId: nat

    ghost predicate Valid()
      reads this
    {
      UniqueIds(farms) &&
      TokensWellFormed(tokens, nextTokenId) &&
      (forall k :: k in tokens ==> HasId(farms, k))
    }

    constructor (farms: seq<Farm>)
      requires UniqueIds(farms)
      ensures Valid()
      ensures this.farms == farms && tokens == map[] && nextTokenId == 0
    {
      this.farms := farms;
      tokens := map[];
      nextTokenId := 0;
    }

    /** The token the farm's client is built with. */
    function TokenOf(farmId: int): (t: TokenFields)
      reads this
      ensures farmId !in tokens ==> t == EMPTY_TOKEN
      ensures farmId in tokens ==> t == tokens[farmId].fields
    {
      if farmId in tokens then tokens[farmId].fields else EMPTY_TOKEN
    }

    /** `_save_token`, with the guard of line 186 taking effect: nothing is
        written without a session or without a farm; otherwise the farm's
        token row is updated in place, or one row is created for it. */
    method SaveToken(token: TokenFields, hasSession: bool, farm: Option<int>)
      requires Valid()
      requires farm.Some? ==> HasId(farms, farm.value)
      modifies this
      ensures Valid()
      ensures farms == old(farms)
      ensures !(hasSession && farm.Some?) ==> tokens == old(tokens) && nextTokenId == old(nextTokenId)
      ensures hasSession && farm.Some? ==>
        (tokens, nextTokenId) == Upsert(old(tokens), old(nextTokenId), farm.value, token)
    {
      if hasSession && farm.Some? {
        UpsertWellFormed(tokens, nextTokenId, farm.value, token);
        var farmId := farm.value;
        if farmId in tokens {
          tokens := tokens[farmId := tokens[farmId].(farmId := farmId, fields := token)];
        } else {
          tokens := tokens[farmId := TokenRow(nextTokenId, farmId, token)];
          nextTokenId := nextTokenId + 1;
        }
      }
    }

    /** The `crud.farm.update_last_accessed` / `update_is_authorized` calls
        of a client build: the farm's health columns follow `AfterConnect`. */
    method RecordConnect(farmId: int, outcome: ConnectOutcome, now: int)
      requires Valid()
      modifies this
      ensures Valid()
      ensures farms == ConnectFarm(old(farms), farmId, outcome, now)
      ensures tokens == old(tokens) && nextTokenId == old(nextTokenId)
    {
      ConnectFarmKeepsIds(farms, farmId, outcome, now);
      farms := ConnectFarm(farms, farmId, outcome, now);
    }

    /** `get_farm_client`. The farmOS constructor is foreign: `outcome` says
        whether it succeeded and which refreshed token, if any, it handed to
        the `_save_token` callback while connecting. On success the farm is
        marked authorized and accessed now and the client is returned; on
        failure it is marked unauthorized with the error text, the admins are
        alerted when every error is to be alerted, and ClientError is raised. */
    method GetFarmClient(farmId: int, settings: Settings, outcome: ConnectOutcome, now: int,
                         users: seq<Alerts.User>)
      returns (r: ClientResult, alerts: seq<Alerts.AlertEmail>)
      requires Valid()
      requires HasId(farms, farmId)
      modifies this
      ensures Valid()
      ensures outcome.refreshed.None? ==> tokens == old(tokens) && nextTokenId == old(nextTokenId)
      ensures outcome.refreshed.Some? ==>
        (tokens, nextTokenId) == Upsert(old(tokens), old(nextTokenId), farmId, outcome.refreshed.value)
      ensures farms == ConnectFarm(old(farms), farmId, outcome, now)
      ensures outcome.Connected? <==> r.Client?
      ensures r.Client? ==>
        var farm := FindById(old(farms), farmId).value;
        r.handle == ClientHandle(farm.url, settings.oauthClientId, settings.oauthClientSecret,
                                 farm.scope, old(TokenOf(farmId)))
      ensures r.ClientError? ==> r.message == outcome.error
      ensures alerts ==
        if outcome.ConnectFailed? && settings.alertAllErrors && settings.emailsEnabled
        then Alerts.SuperuserAlerts(users, AuthFailureMessage(farmId, outcome))
        else []
    {
      var farm := FindById(farms, farmId).value;
      var scope: Option<string> := None;
      if farm.scope.Some? {
        scope := farm.scope;
      }
      var token := TokenOf(farmId);
      // The foreign constructor may refresh the token through the callback.
      if outcome.refreshed.Some? {
        SaveToken(outcome.refreshed.value, true, Some(farmId));
      }
      alerts := [];
      if outcome.Connected? {
        r := Client(ClientHandle(farm.url, settings.oauthClientId, settings.oauthClientSecret, scope, token));
        RecordConnect(farmId, outcome, now);
      } else {
        if settings.alertAllErrors {
          alerts := Alerts.AdminAlertEmail(settings.emailsEnabled, users, AuthFailureMessage(farmId, outcome));
        }
        RecordConnect(farmId, outcome, now);
        r := ClientError(outcome.error);
      }
    }
  }
}
