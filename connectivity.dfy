/** The connectivity probe and the cache policy chosen from it. */
module Connectivity {
  import opened Platform

  /** What the platform reports about the active network. */
  datatype NetworkInfo = NetworkInfo(connectedOrConnecting: bool)

  /** WebSettings cache-mode codes handed to setCacheMode. */
  const LOAD_CACHE_ELSE_NETWORK: int := 1
  const LOAD_NO_CACHE: int := 2

  /** networkIsConnected(): the active network info (null when there is no
      active network) must exist and be connected or connecting. */
  function NetworkIsConnected(activeNetworkInfo: Option<NetworkInfo>): (connected: bool)
    ensures connected <==> activeNetworkInfo.Some? && activeNetworkInfo.value.connectedOrConnecting
  {
    match activeNetworkInfo
    case None => false
    case Some(info) => info.connectedOrConnecting
  }

  /** The cache mode set when the browser surface is configured: bypass the
      cache when online, prefer the cache when offline. */
  function CacheMode(activeNetworkInfo: Option<NetworkInfo>): (mode: int)
    ensures mode == LOAD_NO_CACHE <==> NetworkIsConnected(activeNetworkInfo)
    ensures mode == LOAD_CACHE_ELSE_NETWORK <==> !NetworkIsConnected(activeNetworkInfo)
  {
    if NetworkIsConnected(activeNetworkInfo) then LOAD_NO_CACHE else LOAD_CACHE_ELSE_NETWORK
  }
}
