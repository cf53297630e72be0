/** `BouncieWebhookRequestView.post`: the endpoint the Bouncie cloud pushes events to. */
module Webhook {
  import opened Wrappers
  import opened Json
  import opened Const
  import opened Common
  import opened Host

  const HTTP_OK := 200

  /**
   * Answers every request with 200: an unauthorized one, an authorized one
   * whose body does not parse or validate, and an accepted one, which alone
   * fires `bouncie_webhook` with the validated payload and its client id.
   */
  method Post(hass: Hass, header: Option<string>, body: Option<Value>, render: Render) returns (status: int)
    modifies hass`events
    ensures status == HTTP_OK
    ensures hass.events == old(hass.events) +
      match WebhookEvent(hass.implementations.Keys, header, body, render)
      case Some(data) => [BusEvent(BOUNCIE_EVENT, data)]
      case None => []
  {
    var clientId := header;
    if Authorized(clientId, hass.implementations.Keys) {
      if body.Some? {
        var validated := ValidateWebhook(body.value, render);
        if validated.Success? {
          hass.events := hass.events + [BusEvent(BOUNCIE_EVENT, validated.value[CONF_CLIENT_ID := Str(clientId.value)])];
        }
      }
      return HTTP_OK;
    }
    return HTTP_OK;
  }
}
