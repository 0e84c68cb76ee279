/**
 * Calls from the Sender to the Receiver's REST API. The network is an oracle:
 * given how many calls came before and the request, it gives the response,
 * either a transport error (`WP_Error`) or the body as `json_decode(..., true)`
 * reads it. Every call made is appended to a call log.
 */
module Remote {
  import opened Php
  import opened Config

  const GeneratePath := "/wp-json/wc-xsr/v1/generate"
  const ProductsPath := "/wp-json/wc-xsr/v1/products"
  const GenerateTimeout := 15
  const ProductsTimeout := 10

  datatype RemoteCall =
    | PostGenerate(url: string, secret: string, rewardProductId: string, orderId: int, timeout: int)
    | GetProducts(url: string, secret: string, timeout: int)

  /** An undecodable body decodes to `JNull`. */
  datatype Response = TransportError(message: string) | Received(body: Json)

  /** The peer's answer to the n-th call of the log. */
  type Oracle = (nat, RemoteCall) -> Response

  /** The POST `request_remote_coupon` sends: the configured secret in `X-XSR-Secret`, a 15 second timeout. */
  function GenerateCall(settings: Settings, rewardProductId: string, orderId: int): (call: RemoteCall)
    ensures call.PostGenerate? && call.url == GetRemoteUrl(settings) + GeneratePath
    ensures call.secret == GetSecret(settings) && call.timeout == GenerateTimeout
    ensures call.rewardProductId == rewardProductId && call.orderId == orderId
  {
    PostGenerate(GetRemoteUrl(settings) + GeneratePath, GetSecret(settings), rewardProductId, orderId, GenerateTimeout)
  }

  /** The GET the catalog refresh sends, with a 10 second timeout. */
  function ProductsCall(settings: Settings): (call: RemoteCall)
    ensures call.GetProducts? && call.url == GetRemoteUrl(settings) + ProductsPath
    ensures call.secret == GetSecret(settings) && call.timeout == ProductsTimeout
  {
    GetProducts(GetRemoteUrl(settings) + ProductsPath, GetSecret(settings), ProductsTimeout)
  }
}
