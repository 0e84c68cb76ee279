/**
 * The Sender's cache of the Receiver's product list (the transient
 * `xsr_remote_products_list`), refreshed on an admin's AJAX request.
 */
module CatalogCache {
  import opened Php
  import opened Config
  import opened Remote

  const MissingSettings := "Falta configurar URL o Clave en Ajustes"
  const InvalidReply := "Respuesta inválida del servidor remoto"

  /** What `wp_send_json_error` / `wp_send_json_success` send back; either ends the request. */
  datatype AjaxReply = JsonError(message: string) | JsonSuccess(data: Json)

  /** The reply, the cache (None while the transient is unset) and the call log after a refresh. */
  datatype Refresh = Refresh(reply: AjaxReply, cache: Option<Json>, calls: seq<RemoteCall>)

  /** `! $url || ! $secret` is false: both settings read as true. */
  predicate Configured(settings: Settings)
  {
    TruthyString(GetRemoteUrl(settings)) && TruthyString(GetSecret(settings))
  }

  /** The list is accepted only when it decodes to a non-empty array. */
  predicate AcceptedList(response: Response)
  {
    response.Received? && IsArray(response.body) && Truthy(response.body)
  }

  /**
   * `ajax_refresh_remote_products`: with URL and secret set it asks the peer for
   * its products once; the cache is replaced by the decoded list only when that
   * list is a non-empty array, and every other path answers with an error and
   * leaves the cache as it was.
   */
  function RefreshOutcome(settings: Settings, cache: Option<Json>, calls: seq<RemoteCall>, remote: Oracle): (r: Refresh)
    ensures r.calls == if Configured(settings) then calls + [ProductsCall(settings)] else calls
    ensures r.reply.JsonSuccess? <==> Configured(settings) && AcceptedList(remote(|calls|, ProductsCall(settings)))
    ensures r.reply.JsonSuccess? ==>
      && r.reply.data == remote(|calls|, ProductsCall(settings)).body
      && r.cache == Some(r.reply.data)
    ensures r.reply.JsonError? ==> r.cache == cache
    ensures !Configured(settings) ==> r.reply == JsonError(MissingSettings)
  {
    if !Configured(settings) then Refresh(JsonError(MissingSettings), cache, calls)
    else
      var call := ProductsCall(settings);
      var calls' := calls + [call];
      match remote(|calls|, call)
      case TransportError(message) => Refresh(JsonError(message), cache, calls')
      case Received(body) =>
        if !Truthy(body) || !IsArray(body) then Refresh(JsonError(InvalidReply), cache, calls')
        else Refresh(JsonSuccess(body), Some(body), calls')
  }

  /** An unreachable peer leaves a previously cached list exactly as it was. */
  lemma FailedRefreshKeepsCache(settings: Settings, cached: Json, calls: seq<RemoteCall>, remote: Oracle)
    requires remote(|calls|, ProductsCall(settings)).TransportError?
    ensures RefreshOutcome(settings, Some(cached), calls, remote).cache == Some(cached)
    ensures RefreshOutcome(settings, Some(cached), calls, remote).reply.JsonError?
  {
  }

  /** The body WordPress sends with a 401 when the permission check refuses a request. */
  const RefusalBody := JObject(map[
    "code" := JString("rest_forbidden"),
    "message" := JString("Sorry, you are not allowed to do that."),
    "data" := JObject(map["status" := JInt(401)])])

  /**
   * The HTTP status is never looked at: a peer that refuses the secret answers
   * with a non-empty keyed array, which is cached as the product list and sent
   * back as a success. A `rest_no_route` body is cached the same way.
   */
  lemma RefusalIsCached(settings: Settings, cache: Option<Json>, calls: seq<RemoteCall>, remote: Oracle)
    requires Configured(settings)
    requires remote(|calls|, ProductsCall(settings)) == Received(RefusalBody)
    ensures RefreshOutcome(settings, cache, calls, remote).reply == JsonSuccess(RefusalBody)
    ensures RefreshOutcome(settings, cache, calls, remote).cache == Some(RefusalBody)
  {
  }
}
