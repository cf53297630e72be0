/**
 * The vehicles coordinator, the OAuth2 token dictionaries of the Bouncie
 * implementation, and the decision the webhook view takes on a request.
 */
module Common {
  import opened Wrappers
  import opened Json
  import opened Const
  import opened Vehicles

  // ---------------------------------------------------------------------
  // Vehicles coordinator

  /** Whatever `async_get_vehicles` raised (HTTP error, bad JSON, timeout). */
  datatype FetchError = FetchError(reason: string)

  /** `raise UpdateFailed from err`. */
  datatype UpdateFailed = UpdateFailed(cause: FetchError)

  /**
   * `_async_update_data`: a fetched list becomes the VIN-keyed dict; a fetch
   * that raised becomes UpdateFailed, never a partial dict.
   */
  function UpdateData(fetched: Result<seq<Vehicle>, FetchError>): (r: Result<VehicleData, UpdateFailed>)
    ensures r.Success? <==> fetched.Success?
    ensures r.Success? ==> r.value.Valid() && r.value.byVin.Keys == Vins(fetched.value)
    ensures r.Success? ==> forall vin :: vin in r.value.byVin ==> r.value.byVin[vin].vin == vin
    ensures r.Failure? ==> r.error == UpdateFailed(fetched.error)
  {
    match fetched
    case Success(vehicles) => Success(KeyByVin(vehicles))
    case Failure(err) => Failure(UpdateFailed(err))
  }

  /**
   * The coordinator object every entity of one config entry shares; its
   * `data` is what the entities read.
   */
  class VehiclesCoordinator {
    var data: VehicleData
    var lastUpdateSuccess: bool

    ghost predicate Valid()
      reads this
    {
      data.Valid()
    }

    constructor ()
      ensures Valid() && data == NoVehicles && lastUpdateSuccess
    {
      data := NoVehicles;
      lastUpdateSuccess := true;
    }

    /**
     * One refresh: the data is replaced by the result of `_async_update_data`;
     * on UpdateFailed the host keeps the previous data and records the failure.
     */
    method Refresh(fetched: Result<seq<Vehicle>, FetchError>)
      requires Valid()
      modifies this
      ensures Valid()
      ensures lastUpdateSuccess == fetched.Success?
      ensures data == if fetched.Success? then UpdateData(fetched).value else old(data)
    {
      var result := UpdateData(fetched);
      if result.Success? {
        data := result.value;
        lastUpdateSuccess := true;
      } else {
        lastUpdateSuccess := false;
      }
    }
  }

  // ---------------------------------------------------------------------
  // OAuth2 implementation

  type Token = map<string, Value>

  const CODE := "code"
  const GRANT_AUTHORIZATION_CODE := "authorization_code"

  /** The body of a request to the token endpoint. */
  datatype TokenRequest = TokenRequest(grantType: string, code: Value, redirectUri: Value)

  /**
   * The request `async_resolve_external_data` sends: the authorization-code
   * grant of section 4.1.3 of RFC 6749, with the code and the redirect URI
   * taken from the external data.
   */
  function ExchangeRequest(externalData: Value): (r: Result<TokenRequest, PyError>)
    ensures r.Success? <==> && Index(externalData, CODE).Success?
                            && Index(externalData, "state").Success?
                            && Index(Index(externalData, "state").value, "redirect_uri").Success?
    ensures r.Success? ==> && r.value.grantType == GRANT_AUTHORIZATION_CODE
                           && r.value.code == externalData.fields[CODE]
                           && r.value.redirectUri == externalData.fields["state"].fields["redirect_uri"]
  {
    var code :- Index(externalData, CODE);
    var state :- Index(externalData, "state");
    var redirectUri :- Index(state, "redirect_uri");
    Success(TokenRequest(GRANT_AUTHORIZATION_CODE, code, redirectUri))
  }

  /**
   * `{**response, "code": external_data["code"]}`: the token endpoint's
   * response (a parameter: the exchange itself is I/O) with the authorization
   * code stored beside it, overriding any `code` the response carried.
   */
  function ResolveExternalData(externalData: Value, response: Token): (r: Result<Token, PyError>)
    ensures r.Success? <==> ExchangeRequest(externalData).Success?
    ensures r.Success? ==> r.value.Keys == response.Keys + {CODE}
    ensures r.Success? ==> r.value[CODE] == externalData.fields[CODE]
    ensures r.Success? ==> forall k :: k in response && k != CODE ==> r.value[k] == response[k]
  {
    var request :- ExchangeRequest(externalData);
    Success(response[CODE := request.code])
  }

  /**
   * The request `_async_refresh_token` sends: not the refresh-token grant of
   * section 6 of RFC 6749, but the authorization-code grant again, re-sending
   * the stored code.
   */
  function RefreshRequest(token: Token, redirectUri: string): (r: Result<TokenRequest, PyError>)
    ensures r.Success? <==> CODE in token
    ensures r.Success? ==> r.value == TokenRequest(GRANT_AUTHORIZATION_CODE, token[CODE], Str(redirectUri))
    ensures r.Failure? ==> r.error == KeyError
  {
    var code :- Lookup(token, CODE);
    Success(TokenRequest(GRANT_AUTHORIZATION_CODE, code, Str(redirectUri)))
  }

  /**
   * `{**token, **new_token}`: every key of the old token survives unless the
   * response supplies it, and the response's values win.
   */
  function RefreshedToken(token: Token, response: Token): (r: Token)
    ensures r.Keys == token.Keys + response.Keys
    ensures forall k :: k in response ==> r[k] == response[k]
    ensures forall k :: k in token && k !in response ==> r[k] == token[k]
  {
    token + response
  }

  /** The token after a sequence of successful refreshes with the given responses. */
  function AfterRefreshes(token: Token, responses: seq<Token>): Token
    decreases |responses|
  {
    if responses == [] then token
    else RefreshedToken(AfterRefreshes(token, responses[..|responses| - 1]), responses[|responses| - 1])
  }

  /**
   * As long as the token endpoint never answers with a `code`, the original
   * authorization code survives every refresh, and every refresh re-sends it.
   */
  lemma {:induction false} CodeSurvivesRefreshes(token: Token, responses: seq<Token>, redirectUri: string)
    requires CODE in token
    requires forall i :: 0 <= i < |responses| ==> CODE !in responses[i]
    ensures CODE in AfterRefreshes(token, responses)
    ensures AfterRefreshes(token, responses)[CODE] == token[CODE]
    ensures RefreshRequest(AfterRefreshes(token, responses), redirectUri)
            == Success(TokenRequest(GRANT_AUTHORIZATION_CODE, token[CODE], Str(redirectUri)))
    decreases |responses|
  {
    if responses != [] {
      var front := responses[..|responses| - 1];
      assert forall i :: 0 <= i < |front| ==> front[i] == responses[i];
      CodeSurvivesRefreshes(token, front, redirectUri);
      assert CODE !in responses[|responses| - 1];
    }
  }

  // ---------------------------------------------------------------------
  // Webhook view

  /** The `Authorization` header is non-empty and names a registered implementation. */
  predicate Authorized(header: Option<string>, implementations: set<string>) {
    header.Some? && header.value != "" && header.value in implementations
  }

  /**
   * What `post` fires on the bus, if anything: for an authorized request
   * whose body is JSON (`body` is None when it is not) and passes the
   * payload schema, the validated status with `client_id` set to the header.
   */
  function WebhookEvent(implementations: set<string>, header: Option<string>, body: Option<Value>, render: Render)
    : (r: Option<EventData>)
    ensures r.Some? <==> && Authorized(header, implementations)
                         && body.Some? && ValidateWebhook(body.value, render).Success?
    ensures r.Some? ==> CONF_CLIENT_ID in r.value && r.value[CONF_CLIENT_ID] == Str(header.value)
    ensures r.Some? ==> var status := ValidateWebhook(body.value, render).value;
                        && r.value.Keys == status.Keys + {CONF_CLIENT_ID}
                        && forall k :: k in status && k != CONF_CLIENT_ID ==> r.value[k] == status[k]
  {
    if Authorized(header, implementations) && body.Some? then
      match ValidateWebhook(body.value, render)
      case Success(status) => Some(status[CONF_CLIENT_ID := Str(header.value)])
      case Failure(_) => None
    else None
  }
}
