/**
 * The messages the preload script sends to the main process over IPC.
 * Sending is modelled as appending to a log; the transport is not modelled.
 */
module Ipc {

  /** The bridging key: an opaque string produced once per page load. */
  type Key = string

  /**
   * An outbound message. `ApiExposed(k)` is a send on the channel
   * "api-exposed" with payload `k`; `PasteWorkaround(k)` is a send on the
   * channel "paste-workaround" with payload `k`.
   */
  datatype Outbound = ApiExposed(key: Key) | PasteWorkaround(key: Key)
}
