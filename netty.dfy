/**
 * The Netty side of the boundary: a decoded HTTP request and a channel,
 * reduced to what the handler observes of them.
 */
module Netty {
  import opened Wrappers
  import opened Java

  const HOST: string := "Host"
  const CONTENT_TYPE: string := "Content-Type"

  /**
   * A decoded `HttpRequest`. `headers` maps every header name the request
   * carries (`getHeaderNames()`) to its values in arrival order
   * (`getHeaders(name)`); `content` is the body buffer.
   */
  datatype HttpRequest = HttpRequest(
    methodName: string,
    uri: string,
    headers: map<string, seq<string>>,
    content: seq<int8>)
  {
    /** `getHeaders(name)`: all values, empty when the header is absent. */
    function HeaderValues(name: string): (vs: seq<string>)
    {
      if name in headers then headers[name] else []
    }

    /** `getHeader(name)`: the first value, or `null` when there is none. */
    function Header(name: string): (h: Option<string>)
    {
      if |HeaderValues(name)| > 0 then Some(HeaderValues(name)[0]) else None
    }
  }

  /** What the writer hands to `channel.write`. */
  datatype Message =
    | Chunk(bytes: seq<int8>)  // a wrapped ByteBuffer
    | StatusOnly(code: int)    // a `DefaultHttpResponse(HTTP_1_1, status)` with no body

  /**
   * A Netty `Channel` as an append-only log of the messages written to it,
   * in call order, plus whether it has been closed.
   */
  class Channel {
    var outbound: seq<Message>
    var closed: bool

    /** `channel.write(m)`: queues `m` after everything written before. */
    method Write(m: Message)
      modifies this
      ensures outbound == old(outbound) + [m]
      ensures closed == old(closed)
    {
      outbound := outbound + [m];
    }

    /** `channel.close()`: closing again is harmless. */
    method Close()
      modifies this
      ensures closed
      ensures outbound == old(outbound)
    {
      closed := true;
    }
  }
}
