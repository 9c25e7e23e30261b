# Netty transport adapter for Atmosphere — a Dafny model

This project models `NettyAtmosphereHandler`, the Netty channel handler that lets Netty drive the
Atmosphere comet framework. It covers three pieces:

- **Request translation** (`messageReceived`, `getHeaders`, `getBaseUri`). A decoded Netty request
  becomes the request value Atmosphere consumes: the request URL built from the Host header
  and the URI, a single-valued header map, the method name, the content type and the body.
- **`NettyWriter`**, the asynchronous writer bound to one channel. The channel is a log of the
  messages handed to `channel.write`, in call order, plus a closed flag.
- **The environment shim** (`NettyServletContext` with its `Builder`, and `NettyServletConfig`). It
  covers attributes, init parameters, resource lookup over a file-system value, the constant
  answers and the operations that always throw UnsupportedOperationException.

Modules, leaf first:

- `Wrappers` holds `Option`, `Result` and `Outcome`.
- `Java` holds the Java platform pieces: signed bytes `int8`, the exceptions as `Fault`,
  `HashMap.get`, and the enumeration of a HashMap's key and value views.
  It also holds `UriLibrary`, the java.net conversions as a record of functions.
- `Netty` holds `HttpRequest`, `Message` and the `Channel` class.
- `Translator`, `Writer` and `ServletContext` each model one component.
- `Handler` holds the handler class itself.

A Java exception is a `Failure`/`Fail` carrying the matching `Fault`. A Java `null` is `None`.

Three behaviours of the code worth knowing:

- A missing Host header is not a translation failure. Java's string concatenation renders it as
  `"null"`, so the URI text becomes `"http://null" + uri`.
- Each header name keeps its FIRST value (`get(0)`), not its last.
- The URL text is `"http://" + host + uri`. No extra `/` is added: the `substring` removes exactly the
  `/` that `getBaseUri` appended.

## Model

| member | source | states |
|---|---|---|
| Translator.RequestUriText | src/main/java/org/atmosphere/plugin/netty/NettyAtmosphereHandler.java:81-82 | the text given to `new URI` is exactly `"http://" + host + uri`; removing the last character of the base URI drops only the `/` that `getBaseUri` appended; a missing Host is rendered as `"null"` |
| Translator.HostText | src/main/java/org/atmosphere/plugin/netty/NettyAtmosphereHandler.java:122-124 | the Host text inside `getBaseUri`: the first Host value when there is one, otherwise `"null"`, as Java's string concatenation renders a null |
| Translator.BaseUri | src/main/java/org/atmosphere/plugin/netty/NettyAtmosphereHandler.java:122-124 | `getBaseUri` is `"http://"` and the Host text, followed by exactly one `/` |
| Translator.GetHeaders | src/main/java/org/atmosphere/plugin/netty/NettyAtmosphereHandler.java:111-120 | succeeds exactly when every header name has a value; its keys are exactly the request's header names and each maps to its first value, so it equals the `FirstValues` view; otherwise IndexOutOfBounds |
| Translator.Translation | src/main/java/org/atmosphere/plugin/netty/NettyAtmosphereHandler.java:81-91 | the translation step of `messageReceived`: fails with URISyntax exactly when `new URI` rejects the text, with MalformedURL exactly when it parses and `toURL` rejects it, and otherwise can only fail with IndexOutOfBounds |
| Translator.TranslationSucceedsIff | src/main/java/org/atmosphere/plugin/netty/NettyAtmosphereHandler.java:81-91 | translation succeeds exactly when the URI parses, `toURL` succeeds, every header has a value and a Content-Type value is present |
| Translator.RequestUrlIsHostAndPath | src/main/java/org/atmosphere/plugin/netty/NettyAtmosphereHandler.java:82-86 | on success requestURI and requestURL are the same string, the URL form of `"http://" + host + uri` |
| Translator.HeaderMapKeepsFirstValues | src/main/java/org/atmosphere/plugin/netty/NettyAtmosphereHandler.java:87 | on success the header map's keys are exactly the request's header names, each bound to its first value |
| Translator.ContentTypeIsFirstValue | src/main/java/org/atmosphere/plugin/netty/NettyAtmosphereHandler.java:88-90 | on success the content type is the first Content-Type value, and the method and the body are the request's own |
| Translator.MissingContentTypeFails | src/main/java/org/atmosphere/plugin/netty/NettyAtmosphereHandler.java:89 | with no Content-Type value, translation fails with IndexOutOfBounds once URI and headers pass |
| Translator.MissingHostIsNotAFailure | src/main/java/org/atmosphere/plugin/netty/NettyAtmosphereHandler.java:122-124 | without a Host header the URI text is `"http://null" + uri`, and translation fails on syntax only if the URI library rejects that text |
| Translator.ChatRequestExample | src/main/java/org/atmosphere/plugin/netty/NettyAtmosphereHandler.java:81-91 | GET /chat with Host example.com:8080 and Content-Type text/plain yields URL `http://example.com:8080/chat`, method GET and content type text/plain |
| Netty.Channel.Write | src/main/java/org/atmosphere/plugin/netty/NettyAtmosphereHandler.java:145 | `channel.write` appends one message after all earlier ones and leaves the closed flag alone |
| Netty.Channel.Close | src/main/java/org/atmosphere/plugin/netty/NettyAtmosphereHandler.java:165 | `channel.close` sets the closed flag and adds no message; closing twice is harmless |
| Writer.NettyWriter.constructor | src/main/java/org/atmosphere/plugin/netty/NettyAtmosphereHandler.java:131-133 | the writer is bound to the given channel |
| Writer.NettyWriter.Redirect | src/main/java/org/atmosphere/plugin/netty/NettyAtmosphereHandler.java:135-139 | always fails with UnsupportedOperation; changes nothing |
| Writer.NettyWriter.WriteError | src/main/java/org/atmosphere/plugin/netty/NettyAtmosphereHandler.java:141-146 | appends exactly one status-only response carrying the code; earlier messages unchanged |
| Writer.NettyWriter.WriteString | src/main/java/org/atmosphere/plugin/netty/NettyAtmosphereHandler.java:148-151 | appends exactly one chunk, the string's bytes in the platform charset |
| Writer.NettyWriter.WriteBytes | src/main/java/org/atmosphere/plugin/netty/NettyAtmosphereHandler.java:153-156 | appends exactly one chunk holding the whole array |
| Writer.NettyWriter.WriteSlice | src/main/java/org/atmosphere/plugin/netty/NettyAtmosphereHandler.java:158-161 | appends exactly `data[offset..offset+length]` when the bounds are valid; otherwise IndexOutOfBounds and nothing appended |
| Writer.NettyWriter.Close | src/main/java/org/atmosphere/plugin/netty/NettyAtmosphereHandler.java:163-166 | closes the channel without adding a message |
| Writer.Sent | src/main/java/org/atmosphere/plugin/netty/NettyAtmosphereHandler.java:135-166 | one writer call hands at most one message to the channel: exactly one for each string, array and error write, one for a slice write exactly when its bounds are valid, none for redirect and close |
| Writer.Writes | src/main/java/org/atmosphere/plugin/netty/NettyAtmosphereHandler.java:135-166 | the count of writing calls is zero exactly when no call in the sequence writes anything |
| Writer.Issue | src/main/java/org/atmosphere/plugin/netty/NettyAtmosphereHandler.java:135-166 | one writer call adds exactly the messages `Sent` assigns to it: one for each string, array and error write, one for a slice write exactly when its bounds are valid, none for redirect and close |
| Writer.Replay | src/main/java/org/atmosphere/plugin/netty/NettyAtmosphereHandler.java:141-166 | any sequence of calls on one writer appends exactly `Log(calls)`, in call order, after the earlier messages; the channel ends closed exactly when it was closed or a close was issued |
| Writer.LogLength | src/main/java/org/atmosphere/plugin/netty/NettyAtmosphereHandler.java:141-161 | every call that writes contributes exactly one message, so the log is as long as the number of writing calls |
| Writer.LogAppend | src/main/java/org/atmosphere/plugin/netty/NettyAtmosphereHandler.java:141-161 | the log of two call sequences in turn is the first log followed by the second |
| Writer.LogKeepsEarlierMessages | src/main/java/org/atmosphere/plugin/netty/NettyAtmosphereHandler.java:141-161 | later calls never change the messages earlier calls wrote (a prefix stays a prefix) |
| Java.Get | src/main/java/org/atmosphere/plugin/netty/NettyAtmosphereHandler.java:362-365 | `HashMap.get`: a value exactly when the key is bound, and then the bound value; None (Java null) otherwise |
| Java.EnumerateKeys | src/main/java/org/atmosphere/plugin/netty/NettyAtmosphereHandler.java:367-370 | `Collections.enumeration(keySet())` lists every key exactly once and nothing else, so it is as long as the map |
| Java.EnumerateValues | src/main/java/org/atmosphere/plugin/netty/NettyAtmosphereHandler.java:357-360 | `Collections.enumeration(values())` lists one value per key, in the keys' iteration order: as many entries as keys, and exactly the map's values |
| ServletContext.Walk | src/main/java/org/atmosphere/plugin/netty/NettyAtmosphereHandler.java:266-280 | one level of the `getResourcePaths` recursion: the only failure is StackOverflow, and every path collected is a plain file of some listing |
| ServletContext.Collect | src/main/java/org/atmosphere/plugin/netty/NettyAtmosphereHandler.java:270-277 | the loop over one listing: the only failure is StackOverflow, and every path is a plain entry of the listing or a plain file of some listing |
| ServletContext.ResourcePaths | src/main/java/org/atmosphere/plugin/netty/NettyAtmosphereHandler.java:266-280 | `getResourcePaths` as written: StackOverflow with no frame left, the empty set when `basePath + path` has no listing, and no failure other than StackOverflow |
| ServletContext.ResourcePathsCorrected | src/main/java/org/atmosphere/plugin/netty/NettyAtmosphereHandler.java:266-280 | the walk with each sub-directory listed at its own absolute path: the only failure is StackOverflow, and only plain files of listings are returned |
| ServletContext.CollectFailurePersists | src/main/java/org/atmosphere/plugin/netty/NettyAtmosphereHandler.java:270-277 | a failure (StackOverflowError) in part of a listing aborts the whole listing with that failure |
| ServletContext.WalkExact | src/main/java/org/atmosphere/plugin/netty/NettyAtmosphereHandler.java:266-280 | a successful walk holds exactly the files found below the listed directory, sub-directories being looked up at prefix plus their absolute path |
| ServletContext.CollectExact | src/main/java/org/atmosphere/plugin/netty/NettyAtmosphereHandler.java:270-277 | one listing contributes its plain files and exactly the files found below its directories |
| ServletContext.FileBelowIsListedFile | src/main/java/org/atmosphere/plugin/netty/NettyAtmosphereHandler.java:271-276 | every file found below a directory is a non-directory entry of some listing |
| ServletContext.ResourcePathsAreFiles | src/main/java/org/atmosphere/plugin/netty/NettyAtmosphereHandler.java:266-280 | `getResourcePaths` yields the empty set when the resolved path has no listing, and only non-directory entries otherwise |
| ServletContext.CorrectedFindsAllDescendants | src/main/java/org/atmosphere/plugin/netty/NettyAtmosphereHandler.java:272 | with the recursion on a directory's own path, the result is exactly the set of files below the resolved directory |
| ServletContext.NestedResourceMissed | src/main/java/org/atmosphere/plugin/netty/NettyAtmosphereHandler.java:267-272 | as written, a file one directory below the base path is not returned, while the corrected walk returns it |
| ServletContext.Builder.constructor | src/main/java/org/atmosphere/plugin/netty/NettyAtmosphereHandler.java:208-213 | context path "", no attributes, no init parameters, base path "/" |
| ServletContext.Builder.PutAttribute | src/main/java/org/atmosphere/plugin/netty/NettyAtmosphereHandler.java:215-218 | binds the name to the value and returns the builder itself |
| ServletContext.Builder.ContextPath | src/main/java/org/atmosphere/plugin/netty/NettyAtmosphereHandler.java:220-223 | sets the context path and returns the builder itself |
| ServletContext.Builder.Build | src/main/java/org/atmosphere/plugin/netty/NettyAtmosphereHandler.java:225-236 | the base path becomes the absolute path of "." plus "/"; the new context shares this builder |
| ServletContext.NettyServletContext.constructor | src/main/java/org/atmosphere/plugin/netty/NettyAtmosphereHandler.java:204-206 | the context reads and writes through the builder it was given |
| ServletContext.NettyServletContext.Unsupported | src/main/java/org/atmosphere/plugin/netty/NettyAtmosphereHandler.java:246-320 | getContext (246-248), getMimeType (261-263), getRequestDispatcher, getNamedDispatcher, getServlet, getServlets and getServletNames (297-320) always fail with UnsupportedOperation |
| ServletContext.NettyServletContext.GetContextPath | src/main/java/org/atmosphere/plugin/netty/NettyAtmosphereHandler.java:240-243 | the builder's current context path, shared with the builder |
| ServletContext.NettyServletContext.GetMajorVersion | src/main/java/org/atmosphere/plugin/netty/NettyAtmosphereHandler.java:250-253 | Servlet API major version 2 |
| ServletContext.NettyServletContext.GetMinorVersion | src/main/java/org/atmosphere/plugin/netty/NettyAtmosphereHandler.java:255-258 | Servlet API minor version 5 |
| ServletContext.NettyServletContext.GetServerInfo | src/main/java/org/atmosphere/plugin/netty/NettyAtmosphereHandler.java:347-350 | the server info "Netty-Atmosphere/1.0" |
| ServletContext.NettyServletContext.GetServletContextName | src/main/java/org/atmosphere/plugin/netty/NettyAtmosphereHandler.java:382-385 | the context name "Atmosphere" |
| ServletContext.NettyServletContext.GetResourcePaths | src/main/java/org/atmosphere/plugin/netty/NettyAtmosphereHandler.java:265-280 | the recursive listing equals `ResourcePaths`: the listing of basePath + path, each sub-directory listed at basePath + its absolute path, StackOverflow when the stack runs out |
| ServletContext.NettyServletContext.GetResource | src/main/java/org/atmosphere/plugin/netty/NettyAtmosphereHandler.java:282-285 | the URL text of `"file://" + basePath + path`; IllegalArgument on bad syntax, MalformedURL when `toURL` fails |
| ServletContext.NettyServletContext.GetResourceAsStream | src/main/java/org/atmosphere/plugin/netty/NettyAtmosphereHandler.java:287-295 | a stream on the resolved file when it exists, None when it does not; only the unchecked URI/File exceptions escape |
| ServletContext.NettyServletContext.GetRealPath | src/main/java/org/atmosphere/plugin/netty/NettyAtmosphereHandler.java:337-345 | the URL text of the resolved path, None when `toURL` fails; bad syntax escapes as IllegalArgument |
| ServletContext.NettyServletContext.GetInitParameter | src/main/java/org/atmosphere/plugin/netty/NettyAtmosphereHandler.java:352-355 | a map lookup in the builder's init parameters, None for a missing name |
| ServletContext.NettyServletContext.GetInitParameterNames | src/main/java/org/atmosphere/plugin/netty/NettyAtmosphereHandler.java:357-360 | enumerates the init parameters' values, one per key, and nothing but values |
| ServletContext.NettyServletContext.GetAttribute | src/main/java/org/atmosphere/plugin/netty/NettyAtmosphereHandler.java:362-365 | the bound value, None for an unbound name |
| ServletContext.NettyServletContext.GetAttributeNames | src/main/java/org/atmosphere/plugin/netty/NettyAtmosphereHandler.java:367-370 | enumerates exactly the currently bound names, each once |
| ServletContext.NettyServletContext.SetAttribute | src/main/java/org/atmosphere/plugin/netty/NettyAtmosphereHandler.java:372-375 | afterwards the name yields the value; every other name yields what it did before |
| ServletContext.NettyServletContext.RemoveAttribute | src/main/java/org/atmosphere/plugin/netty/NettyAtmosphereHandler.java:377-380 | afterwards the name yields None; every other name yields what it did before |
| ServletContext.AbsentResourceIsNoStream | src/main/java/org/atmosphere/plugin/netty/NettyAtmosphereHandler.java:287-295 | a missing file gives None, never a failure |
| ServletContext.NettyServletConfig.GetServletName | src/main/java/org/atmosphere/plugin/netty/NettyAtmosphereHandler.java:179-182 | the servlet name "AtmosphereServlet" |
| ServletContext.NettyServletConfig.GetServletContext | src/main/java/org/atmosphere/plugin/netty/NettyAtmosphereHandler.java:184-187 | the very context object the config was created with |
| ServletContext.NettyServletConfig.GetInitParameter | src/main/java/org/atmosphere/plugin/netty/NettyAtmosphereHandler.java:189-192 | a map lookup in the init parameters, None for a missing name |
| ServletContext.NettyServletConfig.GetInitParameterNames | src/main/java/org/atmosphere/plugin/netty/NettyAtmosphereHandler.java:194-197 | as written: enumerates the init parameters' values, one per key, and nothing but values |
| ServletContext.NettyServletConfig.GetInitParameterNamesCorrected | src/main/java/org/atmosphere/plugin/netty/NettyAtmosphereHandler.java:194-197 | the intended enumeration: exactly the names `getInitParameter` resolves, each once |
| ServletContext.InitParameterNamesAreValues | src/main/java/org/atmosphere/plugin/netty/NettyAtmosphereHandler.java:194-197 | with the single parameter org.atmosphere.useNative=true the enumeration yields only "true", which does not resolve, and never the real name |
| Handler.NettyAtmosphereHandler.constructor | src/main/java/org/atmosphere/plugin/netty/NettyAtmosphereHandler.java:62-73 | an empty init-parameter map, and a freshly built context with base path "." resolved plus "/" |
| Handler.NettyAtmosphereHandler.MessageReceived | src/main/java/org/atmosphere/plugin/netty/NettyAtmosphereHandler.java:75-95 | the request passed on is exactly `Translation`; a writer bound to the event's channel is created exactly when translation succeeds |
| Handler.NettyAtmosphereHandler.ExceptionCaught | src/main/java/org/atmosphere/plugin/netty/NettyAtmosphereHandler.java:104-109 | closes the event's channel without writing anything |

## Left out

- `AtmosphereServlet.init` and `doCometSupport` are the external Atmosphere pipeline and are not part of this model. `MessageReceived` stops where the request and the writer are handed over, and the ServletException-to-IOException wrapping is not modelled.
- `Handler.NettyAtmosphereHandler.MessageReceived` takes an already-decoded `HttpRequest`. The cast `(HttpRequest) messageEvent.getMessage()` at line 79 throws ClassCastException for any other message; that failure is not modelled.
- Netty's dispatch of an exception thrown by `messageReceived` to `exceptionCaught` happens inside Netty. The model provides both methods but not the dispatch.
- Netty channel internals are not modelled: write futures, send scheduling, and the failure of a write issued after close. The channel log records every message handed to `channel.write`, including writes after close.
- `ChannelBufferInputStream` is not modelled: the body is passed on as a byte-sequence value, not as a lazy stream.
- Netty matches header names case-insensitively; the model looks names up exactly.
- `Builder.build` touches the file system through `createNewFile` and `deleteOnExit`, and logs an IOException. Neither is modelled: the absolute path of "." is a parameter.
- Paths are looked up as exact strings: the operating system's collapsing of `//` and `/./` is not modelled.
- The file system is a value. It holds directory listings, with paths and directory flags as the listing reports them, and the set of openable files. Stream contents are not modelled.
- Java's URI and URL parsing and `new File(URI)` are foreign library calls, abstracted as a `UriLibrary` record. `String.getBytes()` is a function parameter, because the platform charset is not modelled.
- `NettyServletContext.GetResourcePaths`: the JVM stack is a depth bound. When the bound runs out the result is StackOverflow, where the JVM's actual stack size would decide.
- `Writer.NettyWriter.WriteError`: `HttpResponseStatus.valueOf` is Netty's code, so the model appends the code as given. It does not model how Netty names or rejects unusual codes.
- Null arguments are not modelled, because the model's parameters are never null. In the source:
  - `write(String)`, `write(byte[])` and `write(byte[], int, int)` throw NullPointerException on a null argument (lines 150, 155 and 160).
  - A null name is an ordinary key of the backing `HashMap` for `getAttribute`, `setAttribute`, `removeAttribute` and both `getInitParameter`s. The model's names are strings, so that extra key is not modelled.
  - A null `path` is concatenated as the text `"null"` by `getResourcePaths`, `getResource`, `getResourceAsStream` and `getRealPath` (lines 267, 284, 290 and 340). A caller of the model gets the same result by passing the string `"null"`.
  - `setAttribute(n, null)` (line 374) keeps `n` bound, so `getAttributeNames` (line 369) still lists it, while `getAttribute(n)` (line 364) returns null, the same answer as for an unbound name. With null read as `None`, the source therefore breaks `GetAttributeNames`' promise that a name is listed exactly when `GetAttribute` gives `Some`, for a null-valued name. The model has no null value: every stored value is one more value of the type parameter, and `GetAttribute` returns `Some` of it.
- `Writer.NettyWriter.WriteBytes`, `Writer.NettyWriter.WriteSlice`: the log records the array's contents at the time of the call. `ByteBuffer.wrap` shares the caller's array, and the channel sends asynchronously, so in the source a change the caller makes to the array before Netty sends it is what gets transmitted. That aliasing is not captured.
- `Java.EnumerateKeys`, `Java.EnumerateValues`: the enumeration is a snapshot sequence. `Collections.enumeration` walks the live key or value view, so in the source a `setAttribute` that binds a new name, or a `removeAttribute` of a bound name, made while a `getAttributeNames` enumeration is still being read makes its next `nextElement()` throw ConcurrentModificationException. Replacing a bound value or removing an unbound name does not. That laziness is not captured.
- The `log(...)` methods and all logger calls are left out.
- Concurrency is left out: the unsynchronized attribute map, and event delivery on several threads.
- `Writer.Issue` and `Writer.Replay` are a client of the writer, taking the pipeline's place. They are there to state the ordering property for any sequence of calls.

## Findings

| source | as written | input that shows it | evidently intended | confidence | as-written member | corrected member |
|---|---|---|---|---|---|---|
| src/main/java/org/atmosphere/plugin/netty/NettyAtmosphereHandler.java:194-197 | `getInitParameterNames` enumerates `initParams.values()` | the single parameter org.atmosphere.useNative=true: the enumeration yields "true", and `getInitParameter("true")` is null | enumerate `initParams.keySet()`, the parameter names | not executed; high that it breaks the ServletConfig contract. It cannot be observed in this program: the config's map is the handler's `initParams` (lines 63 and 69), which nothing writes, so the input above never arises here; the context's copy at lines 357-360 is likewise always empty | ServletContext.NettyServletConfig.GetInitParameterNames, shown by ServletContext.InitParameterNamesAreValues | ServletContext.NettyServletConfig.GetInitParameterNamesCorrected |
| src/main/java/org/atmosphere/plugin/netty/NettyAtmosphereHandler.java:267-272 | the recursive call passes `f.getAbsolutePath()`, which is then listed at `basePath + ` that absolute path | working directory /srv, so `build` gives base path "/srv/./"; path "", directory /srv/./WEB-INF holding /srv/./WEB-INF/app.js: the sub-directory is listed at "/srv/.//srv/./WEB-INF" (the operating system reads it as /srv/srv/WEB-INF), which does not exist, so the result is empty | list each sub-directory at its own absolute path, returning every file below the directory | not executed; medium: the doubled prefix normally names no directory; where the operating system resolves it back to the same directory (a working directory of "/", whose base path is "/./") the loss is hidden | ServletContext.NettyServletContext.GetResourcePaths, shown by ServletContext.NestedResourceMissed | ServletContext.ResourcePathsCorrected, proved by ServletContext.CorrectedFindsAllDescendants |
