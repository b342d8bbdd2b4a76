/**
 * The request/response channel to the host (the game client). The network
 * call itself is not modelled: a request's outcome is the host's reply,
 * passed in as a value.
 */
module HostBridge {
  import opened Base

  /** The host's answer `{success, message?}`; a failed or unreadable reply reads as `success == false`. */
  datatype HostReply = HostReply(success: bool, message: Option<string>)

  /**
   * Whether the page runs inside the host (the host's resource-name function
   * exists) and, if so, what the host answers to the request at hand.
   */
  datatype Host = Standalone | Hosted(reply: HostReply)

  /** `result.message || fallback`: the host's message unless it is missing or empty. */
  function FailureText(reply: HostReply, fallback: string): (r: string)
    ensures r == fallback || reply.message == Some(r)
    ensures fallback != "" ==> r != ""
    ensures reply.message.Some? && reply.message.value != "" ==> r == reply.message.value
  {
    if reply.message.Some? && reply.message.value != "" then reply.message.value else fallback
  }
}
