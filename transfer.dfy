/** The transport failures the HTTP client hands to the SDK's rejection
    handler. The client library's exception classes are modelled as one tagged
    datatype; the handler tests the tags in the order the SDK does. */
module Transfer {
  import opened Wrappers

  /** A received HTTP response; `body` is what reading its stream yields. */
  datatype HttpResponse = HttpResponse(status: int, body: string)

  datatype TransferError =
      /** A request that failed, with the response when one was received. */
    | RequestErr(response: Option<HttpResponse>, message: string)
      /** A request that never reached the server. */
    | ConnectErr(uri: string, message: string)
      /** Any other transfer failure. */
    | OtherErr(message: string)
}
