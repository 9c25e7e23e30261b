/**
 * `NettyAtmosphereHandler`, the channel handler: it builds the servlet
 * environment once, translates every decoded request and binds a writer to
 * the request's channel, and closes a channel whose processing raised.
 */
module Handler {
  import opened Wrappers
  import opened Java
  import opened Netty
  import opened Translator
  import opened Writer
  import opened ServletContext

  class NettyAtmosphereHandler<V> {
    const initParams: map<string, string>
    const config: NettyServletConfig<V>

    /**
     * The constructor: an empty init-parameter map and a freshly built
     * context, whose base path is the absolute path of `"."` plus `/`.
     */
    constructor (dotAbsolutePath: string)
      ensures initParams == map[] && config.initParams == initParams
      ensures fresh(config.context) && fresh(config.context.b)
      ensures config.context.b.basePath == dotAbsolutePath + "/"
      ensures config.context.b.contextPath == ""
      ensures config.context.b.attributes == map[]
      ensures config.context.b.initParams == map[]
    {
      var builder := new Builder<V>();
      var context := builder.Build(dotAbsolutePath);
      initParams := map[];
      config := NettyServletConfig(map[], context);
    }

    /**
     * `messageReceived`, up to the hand-over to the pipeline: the request
     * is translated, and only when that succeeds is a writer bound to the
     * event's channel. Nothing is written to the channel here.
     */
    method MessageReceived(req: HttpRequest, channel: Channel, lib: UriLibrary)
      returns (r: Result<AtmosphereRequest, Fault>, w: NettyWriter?)
      ensures r == Translation(req, lib)
      ensures r.Success? <==> w != null
      ensures w != null ==> fresh(w) && w.channel == channel
    {
      var uriText := RequestUriText(req);
      if !lib.parses(uriText) {
        return Failure(URISyntax), null;
      }
      var url := lib.toUrl(uriText);
      if url.None? {
        return Failure(MalformedURL), null;
      }
      var headers := GetHeaders(req);
      if headers.Failure? {
        return Failure(headers.error), null;
      }
      var contentTypes := req.HeaderValues(CONTENT_TYPE);
      if |contentTypes| == 0 {
        return Failure(IndexOutOfBounds), null;
      }
      r := Success(AtmosphereRequest(url.value, url.value, headers.value, req.methodName, contentTypes[0], req.content));
      w := new NettyWriter(channel);
    }

    /** `exceptionCaught`: closes the event's channel, writing nothing. */
    method ExceptionCaught(channel: Channel)
      modifies channel
      ensures channel.closed
      ensures channel.outbound == old(channel.outbound)
    {
      channel.Close();
    }
  }
}
