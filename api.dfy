/** The vendor API client: the refresh-token -> id-token -> API-token chain,
    its expiry window, and the requests it issues. HTTP replies and clock
    readings are inputs; every request sent and every call of the
    refresh-token persistence callback is appended to one event log. */
module Api {
  import opened Json

  /** The margin before expiry after which a token counts as stale
      (`timedelta(hours=1)`), in seconds. */
  const ExpiryMargin: int := 3600

  /** What an HTTP exchange produced: a transport failure (connection error
      or timeout), or a status with a body that is None when it is not JSON. */
  datatype Reply = TransportError | Response(status: int, body: Option<Value>)

  datatype Request =
    | TokenGrantRequest(refreshToken: Value)
    | LoginRequest(idToken: Value)
    | NegotiateRequest(bearer: Value)
    | LocationRequest(bearer: Value, locationId: string)
    | DeviceStatesRequest(bearer: Value, locationId: string)
    | CommandRequest(bearer: Value, locationId: string, payload: Value)

  datatype Event = Sent(request: Request) | Persisted(refreshToken: Value)

  /** `_refresh_token`, `_id_token`, `_api_token`, `_expiry_date` (seconds). */
  datatype Credentials = Credentials(refreshToken: Value, idToken: Value, apiToken: Value, expiry: Option<int>)

  /** The effect of one operation: the new credentials, the events it
      produced in order, and its return value. */
  datatype Outcome<+T> = Outcome(creds: Credentials, events: seq<Event>, result: T)

  /** The error `get_device_states` re-raises. */
  datatype RequestError = RequestFailed

  /** `raise_for_status()` passes: aiohttp raises only for statuses >= 400. */
  predicate StatusOk(r: Reply)
  {
    r.Response? && r.status < 400
  }

  /** The mapping `data` a call reads with `data.get(...)`, or None when the
      reply raises first (transport error, status >= 400, undecodable body)
      or `data` is not a mapping (`.get` raises AttributeError). */
  function ReplyObject(r: Reply): (m: Option<map<string, Value>>)
    // a reply is read exactly when it passed raise_for_status and decoded to a mapping
    ensures m.Some? <==> StatusOk(r) && r.body.Some? && r.body.value.JObj?
    ensures m.Some? ==> r.body == Some(JObj(m.value))
    ensures !StatusOk(r) ==> m.None?
  {
    if StatusOk(r) && r.body.Some? && r.body.value.JObj? then Some(r.body.value.fields) else None
  }

  /** verify_token_validity: valid iff an expiry is set and now is more than
      one hour before it. */
  predicate TokenValid(expiry: Option<int>, now: int)
  {
    expiry.Some? && now < expiry.value - ExpiryMargin
  }

  /** The number of times the persistence callback was called. */
  function PersistCount(events: seq<Event>): (n: nat)
    ensures n <= |events|
    ensures n == 0 <==> forall i :: 0 <= i < |events| ==> !events[i].Persisted?
  {
    if events == [] then 0
    else PersistCount(events[..|events| - 1]) + (if events[|events| - 1].Persisted? then 1 else 0)
  }

  /** authenticate_b2c: exchange the refresh token for an id token and a
      rotated refresh token. */
  function B2cStep(c: Credentials, persist: bool, reply: Reply): (o: Outcome<bool>)
    // the token request always goes out first, carrying the current refresh token
    ensures |o.events| >= 1 && o.events[0] == Sent(TokenGrantRequest(c.refreshToken))
    // no usable reply: False, nothing stored, nothing persisted
    ensures ReplyObject(reply).None? ==>
              o.creds == c && o.events == [Sent(TokenGrantRequest(c.refreshToken))] && !o.result
    // a usable reply: both tokens are overwritten by what it carries (even when absent),
    // the new refresh token is persisted once, and the result says whether an id token came back
    ensures ReplyObject(reply).Some? ==>
              var m := ReplyObject(reply).value;
              && o.creds == c.(idToken := Get(m, "id_token"), refreshToken := Get(m, "refresh_token"))
              && o.events == [Sent(TokenGrantRequest(c.refreshToken))]
                             + (if persist then [Persisted(Get(m, "refresh_token"))] else [])
              && (o.result <==> Truthy(Get(m, "id_token")))
    ensures o.creds.apiToken == c.apiToken && o.creds.expiry == c.expiry
  {
    var sent := [Sent(TokenGrantRequest(c.refreshToken))];
    match ReplyObject(reply)
    case None => Outcome(c, sent, false)
    case Some(data) =>
      var c' := c.(idToken := Get(data, "id_token"), refreshToken := Get(data, "refresh_token"));
      Outcome(c', sent + (if persist then [Persisted(c'.refreshToken)] else []), Truthy(c'.idToken))
  }

  /** `timedelta(seconds=data.get("expiresInSeconds", 0))`: None when the
      value is not an integer (the addition raises). */
  function ExpiresIn(m: map<string, Value>): Option<int>
  {
    if "expiresInSeconds" !in m then Some(0)
    else match m["expiresInSeconds"]
      case JNum(n) => Some(n)
      case JBool(b) => Some(if b then 1 else 0)
      case _ => None
  }

  /** authenticate_api: exchange the id token for an API token and expiry. */
  function LoginStep(c: Credentials, reply: Reply, now: int): (o: Outcome<bool>)
    ensures o.events == [Sent(LoginRequest(c.idToken))]
    ensures o.creds.refreshToken == c.refreshToken && o.creds.idToken == c.idToken
    ensures ReplyObject(reply).None? ==> o.creds == c && !o.result
    // a usable reply always overwrites the API token, even with a missing one
    ensures ReplyObject(reply).Some? ==> o.creds.apiToken == Get(ReplyObject(reply).value, "token")
    // without a token: False and the old expiry stays
    ensures ReplyObject(reply).Some? && !Truthy(Get(ReplyObject(reply).value, "token")) ==>
              o.creds.expiry == c.expiry && !o.result
    // success is exactly: a token and an integer lifetime; the expiry is then now + lifetime
    ensures o.result <==> ReplyObject(reply).Some? && Truthy(o.creds.apiToken) && ExpiresIn(ReplyObject(reply).value).Some?
    ensures o.result ==> o.creds.expiry == Some(now + ExpiresIn(ReplyObject(reply).value).value)
    ensures !o.result ==> o.creds.expiry == c.expiry
  {
    var sent := [Sent(LoginRequest(c.idToken))];
    match ReplyObject(reply)
    case None => Outcome(c, sent, false)
    case Some(data) =>
      var token := Get(data, "token");
      if !Truthy(token) then Outcome(c.(apiToken := token), sent, false)
      else match ExpiresIn(data)
        case None => Outcome(c.(apiToken := token), sent, false)
        case Some(seconds) => Outcome(c.(apiToken := token, expiry := Some(now + seconds)), sent, true)
  }

  /** reauthenticate_if_needed: run the chain only when the token is not valid
      at `now`; `loginNow` is the clock reading taken inside authenticate_api. */
  function ReauthStep(c: Credentials, persist: bool, now: int, b2c: Reply, login: Reply, loginNow: int): (o: Outcome<bool>)
    // a valid token: no request, nothing changes, False
    ensures TokenValid(c.expiry, now) ==> o == Outcome(c, [], false)
    // otherwise True whatever the two steps returned, token grant first and login last
    ensures !TokenValid(c.expiry, now) ==>
              && o.result
              && |o.events| >= 2
              && o.events[0] == Sent(TokenGrantRequest(c.refreshToken))
              && o.events[|o.events| - 1] == Sent(LoginRequest(B2cStep(c, persist, b2c).creds.idToken))
    // otherwise the credentials are those the login leaves after the grant, and
    // the log is the grant's events followed by the login's
    ensures !TokenValid(c.expiry, now) ==>
              var first := B2cStep(c, persist, b2c);
              var second := LoginStep(first.creds, login, loginNow);
              o.creds == second.creds && o.events == first.events + second.events
  {
    if TokenValid(c.expiry, now) then Outcome(c, [], false)
    else
      var first := B2cStep(c, persist, b2c);
      var second := LoginStep(first.creds, login, loginNow);
      Outcome(second.creds, first.events + second.events, true)
  }

  /** `response.status` of the location check: 404 and 403 are refusals,
      other statuses >= 400 raise (caught: False). */
  predicate LocationGranted(r: Reply)
  {
    r.Response? && r.status != 404 && r.status != 403 && r.status < 400
  }

  /** verify_access: token grant, login, then the location check. */
  function VerifyAccessStep(c: Credentials, persist: bool, locationId: string,
                            b2c: Reply, login: Reply, loginNow: int, location: Reply): (o: Outcome<bool>)
    // the location request is made only when both authentication steps succeed
    ensures !B2cStep(c, persist, b2c).result ==> o == B2cStep(c, persist, b2c).(result := false)
    ensures B2cStep(c, persist, b2c).result && !LoginStep(B2cStep(c, persist, b2c).creds, login, loginNow).result ==>
              !o.result && forall i :: 0 <= i < |o.events| ==> !(o.events[i].Sent? && o.events[i].request.LocationRequest?)
    // the answer is the location check's: False on 404/403 and on any failure
    ensures o.result <==>
              && B2cStep(c, persist, b2c).result
              && LoginStep(B2cStep(c, persist, b2c).creds, login, loginNow).result
              && LocationGranted(location)
    // after both steps succeed, the location request is the last thing sent, with the new API token
    ensures B2cStep(c, persist, b2c).result && LoginStep(B2cStep(c, persist, b2c).creds, login, loginNow).result ==>
              |o.events| >= 3 && o.events[|o.events| - 1] == Sent(LocationRequest(o.creds.apiToken, locationId))
    // once the grant succeeded, the credentials are those the login leaves; the log is
    // the grant's and the login's events, then the location request if the login succeeded
    ensures B2cStep(c, persist, b2c).result ==>
              var first := B2cStep(c, persist, b2c);
              var second := LoginStep(first.creds, login, loginNow);
              && o.creds == second.creds
              && o.events == first.events + second.events
                             + (if second.result then [Sent(LocationRequest(second.creds.apiToken, locationId))] else [])
  {
    var first := B2cStep(c, persist, b2c);
    if !first.result then first
    else
      var second := LoginStep(first.creds, login, loginNow);
      if !second.result then Outcome(second.creds, first.events + second.events, false)
      else
        Outcome(second.creds, first.events + second.events + [Sent(LocationRequest(second.creds.apiToken, locationId))],
                LocationGranted(location))
  }

  /** The list shaping of get_device_states: a JSON list is returned as is,
      anything else as []; a failed request raises. */
  function DeviceStatesResult(r: Reply): (res: Result<seq<Value>, RequestError>)
    ensures res.Err? <==> !StatusOk(r) || r.body.None?
    ensures res.Ok? && r.body.value.JArr? ==> res.value == r.body.value.items
    ensures res.Ok? && !r.body.value.JArr? ==> res.value == []
  {
    if !StatusOk(r) || r.body.None? then Err(RequestFailed)
    else match r.body.value
      case JArr(items) => Ok(items)
      case _ => Ok([])
  }

  /** get_device_states: seed the tokens with verify_access when there is no
      API token, then fetch. */
  function DeviceStatesStep(c: Credentials, persist: bool, locationId: string,
                            b2c: Reply, login: Reply, loginNow: int, location: Reply,
                            states: Reply): (o: Outcome<Result<seq<Value>, RequestError>>)
    // a present API token: exactly one request, with that token
    ensures Truthy(c.apiToken) ==> o == Outcome(c, [Sent(DeviceStatesRequest(c.apiToken, locationId))], DeviceStatesResult(states))
    // otherwise verify_access runs first, whatever it returns, and the fetch uses the token it left
    ensures !Truthy(c.apiToken) ==>
              var seed := VerifyAccessStep(c, persist, locationId, b2c, login, loginNow, location);
              o.creds == seed.creds && o.events == seed.events + [Sent(DeviceStatesRequest(seed.creds.apiToken, locationId))]
    ensures o.result == DeviceStatesResult(states)
  {
    var seed := if Truthy(c.apiToken) then Outcome(c, [], true)
                else VerifyAccessStep(c, persist, locationId, b2c, login, loginNow, location);
    Outcome(seed.creds, seed.events + [Sent(DeviceStatesRequest(seed.creds.apiToken, locationId))], DeviceStatesResult(states))
  }

  /** get_signalr_access_token: the negotiated token; False when the reply has
      none, "" when the request fails. */
  function NegotiateStep(c: Credentials, reply: Reply): (o: Outcome<Value>)
    ensures o.creds == c && o.events == [Sent(NegotiateRequest(c.apiToken))]
    ensures ReplyObject(reply).None? ==> o.result == JStr("")
    ensures ReplyObject(reply).Some? && !Truthy(Get(ReplyObject(reply).value, "accessToken")) ==> o.result == JBool(false)
    // the result is a usable token exactly when the reply carried one
    ensures Truthy(o.result) <==> ReplyObject(reply).Some? && Truthy(Get(ReplyObject(reply).value, "accessToken"))
    ensures Truthy(o.result) ==> o.result == Get(ReplyObject(reply).value, "accessToken")
  {
    var sent := [Sent(NegotiateRequest(c.apiToken))];
    match ReplyObject(reply)
    case None => Outcome(c, sent, JStr(""))
    case Some(data) =>
      var token := Get(data, "accessToken");
      Outcome(c, sent, if Truthy(token) then token else JBool(false))
  }

  /** The toggle command body: ActionSwitch / TOGGLE on one device of one dock,
      the dock number sent as its decimal text. */
  function TogglePayload(dockNumber: Option<int>, deviceNumber: Option<int>): (p: Value)
    ensures p.JObj? && Get(p.fields, "action") == JStr("ActionSwitch")
    ensures Get(p.fields, "actionParameters") == JObj(map["switchAction" := JStr("TOGGLE")])
    ensures Get(p.fields, "targetDevice").JObj?
    ensures var target := Get(p.fields, "targetDevice").fields;
            && Get(target, "deviceNumber") == (if deviceNumber.Some? then JNum(deviceNumber.value) else JNull)
            && Get(target, "dockNumber").JStr?
            // the receiver reads the dock number back unchanged; a missing one arrives as "None"
            && ParseDecimal(Get(target, "dockNumber").s) == dockNumber
  {
    IntTextRoundTrip(dockNumber);
    JObj(map[
      "action" := JStr("ActionSwitch"),
      "actionParameters" := JObj(map["switchAction" := JStr("TOGGLE")]),
      "targetDevice" := JObj(map[
        "deviceNumber" := (if deviceNumber.Some? then JNum(deviceNumber.value) else JNull),
        "dockNumber" := JStr(IntText(dockNumber))])])
  }

  /** toggle_light: True iff the command request did not raise. */
  function ToggleStep(c: Credentials, locationId: string, dockNumber: Option<int>, deviceNumber: Option<int>,
                      reply: Reply): (o: Outcome<bool>)
    ensures o.creds == c
    ensures o.events == [Sent(CommandRequest(c.apiToken, locationId, TogglePayload(dockNumber, deviceNumber)))]
    ensures o.result <==> StatusOk(reply)
  {
    Outcome(c, [Sent(CommandRequest(c.apiToken, locationId, TogglePayload(dockNumber, deviceNumber)))], StatusOk(reply))
  }

  /** When a token reply is usable, the persistence callback runs exactly once,
      with the rotated refresh token, between the token grant and the login:
      also when the reply lacks an id token. */
  lemma ReauthPersistsOnceBeforeLogin(c: Credentials, now: int, b2c: Reply, login: Reply, loginNow: int)
    requires !TokenValid(c.expiry, now) && ReplyObject(b2c).Some?
    ensures var o := ReauthStep(c, true, now, b2c, login, loginNow);
            var rotated := Get(ReplyObject(b2c).value, "refresh_token");
            && o.events == [Sent(TokenGrantRequest(c.refreshToken)), Persisted(rotated),
                            Sent(LoginRequest(Get(ReplyObject(b2c).value, "id_token")))]
            && PersistCount(o.events) == 1
            && o.creds.refreshToken == rotated
  {
    var o := ReauthStep(c, true, now, b2c, login, loginNow);
    assert o.events[..2][..1] == [Sent(TokenGrantRequest(c.refreshToken))];
    assert o.events[..1] == o.events[..2][..1];
  }

  /** A failed exchange at either stage never calls the persistence callback. */
  lemma FailedGrantPersistsNothing(c: Credentials, persist: bool, now: int, b2c: Reply, login: Reply, loginNow: int)
    requires ReplyObject(b2c).None?
    ensures PersistCount(ReauthStep(c, persist, now, b2c, login, loginNow).events) == 0
    ensures ReauthStep(c, persist, now, b2c, login, loginNow).creds.refreshToken == c.refreshToken
  {
    var o := ReauthStep(c, persist, now, b2c, login, loginNow);
    if !TokenValid(c.expiry, now) {
      assert o.events == [Sent(TokenGrantRequest(c.refreshToken)), Sent(LoginRequest(c.idToken))];
    }
  }

  /** After a successful login at `loginNow` with lifetime d, the token is
      valid at t exactly while t < loginNow + d - 3600; so a lifetime of an hour
      or less is stale from the start and every later check re-runs the chain. */
  lemma LoginValidityWindow(c: Credentials, reply: Reply, loginNow: int, t: int)
    requires LoginStep(c, reply, loginNow).result
    ensures var d := ExpiresIn(ReplyObject(reply).value).value;
            && (TokenValid(LoginStep(c, reply, loginNow).creds.expiry, t) <==> t < loginNow + d - ExpiryMargin)
            && (d <= ExpiryMargin && t >= loginNow ==> !TokenValid(LoginStep(c, reply, loginNow).creds.expiry, t))
  {
  }

  /** The API token and the expiry are not kept together: a usable login reply
      without a token clears the API token but keeps a still-valid expiry, so
      reauthenticate_if_needed then does nothing while the token is gone. */
  lemma LostTokenKeepsValidExpiry(c: Credentials, persist: bool, now: int, loginNow: int,
                                  b2c: Reply, login: Reply, later: Reply)
    requires TokenValid(c.expiry, now)
    ensures var lost := LoginStep(c, Response(200, Some(JObj(map[]))), loginNow).creds;
            && !Truthy(lost.apiToken)
            && TokenValid(lost.expiry, now)
            && ReauthStep(lost, persist, now, b2c, login, loginNow) == Outcome(lost, [], false)
  {
  }

  /** StredaApiClient: the four credential fields, mutated in place by the
      authentication methods, and the log of what the client sent and
      persisted. Each method is the step function above, executed. */
  class StredaApiClient {
    var refreshToken: Value
    var idToken: Value
    var apiToken: Value
    var expiry: Option<int>
    const locationId: string
    /** Whether a refresh-token persistence callback was supplied. */
    const persistsTokens: bool
    var events: seq<Event>

    function Creds(): Credentials
      reads this
    {
      Credentials(refreshToken, idToken, apiToken, expiry)
    }

    constructor (refreshToken: string, locationId: string, persistsTokens: bool)
      ensures Creds() == Credentials(JStr(refreshToken), JNull, JNull, None)
      ensures this.locationId == locationId && this.persistsTokens == persistsTokens && events == []
    {
      this.refreshToken := JStr(refreshToken);
      this.locationId := locationId;
      this.persistsTokens := persistsTokens;
      this.idToken := JNull;
      this.apiToken := JNull;
      this.expiry := None;
      this.events := [];
    }

    method AuthenticateB2c(reply: Reply) returns (ok: bool)
      modifies this`refreshToken, this`idToken, this`events
      ensures Creds() == B2cStep(old(Creds()), persistsTokens, reply).creds
      ensures events == old(events) + B2cStep(old(Creds()), persistsTokens, reply).events
      ensures ok == B2cStep(old(Creds()), persistsTokens, reply).result
    {
      events := events + [Sent(TokenGrantRequest(refreshToken))];
      var data := ReplyObject(reply);
      if data.None? {
        return false;
      }
      idToken := Get(data.value, "id_token");
      refreshToken := Get(data.value, "refresh_token");
      if persistsTokens {
        events := events + [Persisted(refreshToken)];
      }
      if !Truthy(idToken) {
        return false;
      }
      return true;
    }

    method AuthenticateApi(reply: Reply, now: int) returns (ok: bool)
      modifies this`apiToken, this`expiry, this`events
      ensures Creds() == LoginStep(old(Creds()), reply, now).creds
      ensures events == old(events) + LoginStep(old(Creds()), reply, now).events
      ensures ok == LoginStep(old(Creds()), reply, now).result
    {
      events := events + [Sent(LoginRequest(idToken))];
      var data := ReplyObject(reply);
      if data.None? {
        return false;
      }
      apiToken := Get(data.value, "token");
      if !Truthy(apiToken) {
        return false;
      }
      var seconds := ExpiresIn(data.value);
      if seconds.None? {
        return false;
      }
      expiry := Some(now + seconds.value);
      return true;
    }

    /** verify_token_validity at clock reading `now`. */
    method VerifyTokenValidity(now: int) returns (valid: bool)
      ensures valid <==> expiry.Some? && now < expiry.value - ExpiryMargin
      ensures valid == TokenValid(expiry, now)
    {
      if expiry.None? {
        return false;
      }
      return now < expiry.value - ExpiryMargin;
    }

    method ReauthenticateIfNeeded(now: int, b2c: Reply, login: Reply, loginNow: int) returns (reauthenticated: bool)
      modifies this`refreshToken, this`idToken, this`apiToken, this`expiry, this`events
      ensures Creds() == ReauthStep(old(Creds()), persistsTokens, now, b2c, login, loginNow).creds
      ensures events == old(events) + ReauthStep(old(Creds()), persistsTokens, now, b2c, login, loginNow).events
      ensures reauthenticated == ReauthStep(old(Creds()), persistsTokens, now, b2c, login, loginNow).result
    {
      var valid := VerifyTokenValidity(now);
      if !valid {
        var _ := AuthenticateB2c(b2c);
        var _ := AuthenticateApi(login, loginNow);
        return true;
      }
      return false;
    }

    method GetSignalrAccessToken(reply: Reply) returns (token: Value)
      modifies this`events
      ensures events == old(events) + NegotiateStep(Creds(), reply).events
      ensures token == NegotiateStep(Creds(), reply).result
    {
      events := events + [Sent(NegotiateRequest(apiToken))];
      var data := ReplyObject(reply);
      if data.None? {
        return JStr("");
      }
      token := Get(data.value, "accessToken");
      if !Truthy(token) {
        return JBool(false);
      }
    }

    method VerifyAccess(b2c: Reply, login: Reply, loginNow: int, location: Reply) returns (ok: bool)
      modifies this`refreshToken, this`idToken, this`apiToken, this`expiry, this`events
      ensures Creds() == VerifyAccessStep(old(Creds()), persistsTokens, locationId, b2c, login, loginNow, location).creds
      ensures events == old(events) + VerifyAccessStep(old(Creds()), persistsTokens, locationId, b2c, login, loginNow, location).events
      ensures ok == VerifyAccessStep(old(Creds()), persistsTokens, locationId, b2c, login, loginNow, location).result
    {
      var granted := AuthenticateB2c(b2c);
      if !granted {
        return false;
      }
      var loggedIn := AuthenticateApi(login, loginNow);
      if !loggedIn {
        return false;
      }
      events := events + [Sent(LocationRequest(apiToken, locationId))];
      if location.TransportError? || location.status == 404 || location.status == 403 {
        return false;
      }
      return location.status < 400;
    }

    method GetDeviceStates(b2c: Reply, login: Reply, loginNow: int, location: Reply, states: Reply)
      returns (r: Result<seq<Value>, RequestError>)
      modifies this`refreshToken, this`idToken, this`apiToken, this`expiry, this`events
      ensures Creds() == DeviceStatesStep(old(Creds()), persistsTokens, locationId, b2c, login, loginNow, location, states).creds
      ensures events == old(events) + DeviceStatesStep(old(Creds()), persistsTokens, locationId, b2c, login, loginNow, location, states).events
      ensures r == DeviceStatesStep(old(Creds()), persistsTokens, locationId, b2c, login, loginNow, location, states).result
    {
      if !Truthy(apiToken) {
        var _ := VerifyAccess(b2c, login, loginNow, location);
      }
      events := events + [Sent(DeviceStatesRequest(apiToken, locationId))];
      if !StatusOk(states) || states.body.None? {
        return Err(RequestFailed);
      }
      r := if states.body.value.JArr? then Ok(states.body.value.items) else Ok([]);
    }

    method ToggleLight(dockNumber: Option<int>, deviceNumber: Option<int>, reply: Reply) returns (ok: bool)
      modifies this`events
      ensures events == old(events) + ToggleStep(Creds(), locationId, dockNumber, deviceNumber, reply).events
      ensures ok == ToggleStep(Creds(), locationId, dockNumber, deviceNumber, reply).result
    {
      var payload := TogglePayload(dockNumber, deviceNumber);
      events := events + [Sent(CommandRequest(apiToken, locationId, payload))];
      return StatusOk(reply);
    }
  }
}
