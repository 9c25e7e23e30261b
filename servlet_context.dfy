/**
 * The execution-environment shim: `NettyServletContext` with its `Builder`,
 * and `NettyServletConfig`. The file system is a value: the listings that
 * `File.listFiles()` returns for directories, and the set of readable files.
 */
module ServletContext {
  import opened Wrappers
  import opened Java

  /** One element of a `listFiles()` array: `getAbsolutePath()` and `isDirectory()`. */
  datatype Entry = Entry(absolutePath: string, isDirectory: bool)

  /**
   * `listings[p]` is what `new File(p).listFiles()` returns; a path without
   * a listing (absent, or not a directory) makes it return `null`.
   * `files` holds the paths a `FileInputStream` can open.
   */
  datatype FileSystem = FileSystem(listings: map<string, seq<Entry>>, files: set<string>)

  /** A `FileInputStream` opened on a file path. */
  datatype InputStream = FileStream(path: string)

  // ---------------------------------------------------------------------
  // The resource walk of getResourcePaths
  // ---------------------------------------------------------------------

  /**
   * The paths collected by listing `dir` with `depth` stack frames left:
   * files are added by absolute path, and a sub-directory `f` is walked at
   * `prefix + f.absolutePath`. With no frame left the JVM throws
   * StackOverflowError; a path without a listing yields the empty set.
   */
  function Walk(fs: FileSystem, dir: string, prefix: string, depth: nat): (r: Result<set<string>, Fault>)
    ensures r.Failure? ==> r.error == StackOverflow
    ensures r.Success? ==> forall p :: p in r.value ==> ListedFile(fs, p)
    decreases depth, 0
  {
    if depth == 0 then Failure(StackOverflow)
    else if dir !in fs.listings then Success({})
    else Collect(fs, fs.listings[dir], prefix, depth - 1)
  }

  /** The loop over one listing, in array order; the first failing sub-walk aborts it. */
  function Collect(fs: FileSystem, entries: seq<Entry>, prefix: string, depth: nat): (r: Result<set<string>, Fault>)
    ensures r.Failure? ==> r.error == StackOverflow
    ensures r.Success? ==> forall p :: p in r.value ==> Entry(p, false) in entries || ListedFile(fs, p)
    decreases depth, 1, |entries|
  {
    if entries == [] then Success({})
    else
      match Collect(fs, entries[..|entries| - 1], prefix, depth)
      case Failure(e) => Failure(e)
      case Success(s) =>
        var f := entries[|entries| - 1];
        if f.isDirectory then
          match Walk(fs, prefix + f.absolutePath, prefix, depth)
          case Failure(e) => Failure(e)
          case Success(inner) => Success(s + inner)
        else Success(s + {f.absolutePath})
  }

  /**
   * `getResourcePaths(path)` as written: the listing of `basePath + path`,
   * and every sub-directory is listed again at `basePath` + its absolute path.
   */
  function ResourcePaths(fs: FileSystem, basePath: string, path: string, depth: nat): (r: Result<set<string>, Fault>)
    ensures depth == 0 ==> r == Failure(StackOverflow)
    ensures depth > 0 && basePath + path !in fs.listings ==> r == Success({})
    ensures r.Failure? ==> r.error == StackOverflow
  {
    Walk(fs, basePath + path, basePath, depth)
  }

  /** The evidently intended walk: a sub-directory is listed at its own absolute path. */
  function ResourcePathsCorrected(fs: FileSystem, basePath: string, path: string, depth: nat): (r: Result<set<string>, Fault>)
    ensures r.Failure? ==> r.error == StackOverflow
    ensures r.Success? ==> forall p :: p in r.value ==> ListedFile(fs, p)
  {
    Walk(fs, basePath + path, "", depth)
  }

  /**
   * `p` is a file found below `dir` within `depth` levels, when each
   * sub-directory `e` is looked up at `prefix + e.absolutePath`.
   */
  ghost predicate FileBelow(fs: FileSystem, prefix: string, dir: string, p: string, depth: nat)
    decreases depth
  {
    && depth > 0
    && dir in fs.listings
    && (|| Entry(p, false) in fs.listings[dir]
        || exists e :: e in fs.listings[dir] && e.isDirectory && FileBelow(fs, prefix, prefix + e.absolutePath, p, depth - 1))
  }

  /** `p` is a plain file (not a directory) of some listing. */
  ghost predicate ListedFile(fs: FileSystem, p: string)
  {
    exists d :: d in fs.listings && Entry(p, false) in fs.listings[d]
  }

  /** A failure in a prefix of a listing is the failure of the whole listing. */
  lemma {:induction false} CollectFailurePersists(fs: FileSystem, entries: seq<Entry>, prefix: string, depth: nat, i: nat)
    requires i <= |entries|
    requires Collect(fs, entries[..i], prefix, depth).Failure?
    ensures Collect(fs, entries, prefix, depth) == Collect(fs, entries[..i], prefix, depth)
    decreases |entries|
  {
    if i < |entries| {
      var init := entries[..|entries| - 1];
      assert init[..i] == entries[..i];
      CollectFailurePersists(fs, init, prefix, depth, i);
    } else {
      assert entries[..i] == entries;
    }
  }

  /** A successful walk collects exactly the files below `dir`. */
  lemma {:induction false} WalkExact(fs: FileSystem, dir: string, prefix: string, depth: nat, p: string)
    requires Walk(fs, dir, prefix, depth).Success?
    ensures p in Walk(fs, dir, prefix, depth).value <==> FileBelow(fs, prefix, dir, p, depth)
    decreases depth, 0
  {
    if dir in fs.listings {
      CollectExact(fs, fs.listings[dir], prefix, depth - 1, p);
    }
  }

  /** A successful listing collects its files and exactly the files below its directories. */
  lemma {:induction false} CollectExact(fs: FileSystem, entries: seq<Entry>, prefix: string, depth: nat, p: string)
    requires Collect(fs, entries, prefix, depth).Success?
    ensures p in Collect(fs, entries, prefix, depth).value <==>
      || Entry(p, false) in entries
      || exists e :: e in entries && e.isDirectory && FileBelow(fs, prefix, prefix + e.absolutePath, p, depth)
    decreases depth, 1, |entries|
  {
    if entries != [] {
      var init := entries[..|entries| - 1];
      var f := entries[|entries| - 1];
      assert entries == init + [f];
      CollectExact(fs, init, prefix, depth, p);
      if f.isDirectory {
        WalkExact(fs, prefix + f.absolutePath, prefix, depth, p);
      }
    }
  }

  /** Every file below a directory is a plain file of some listing. */
  lemma {:induction false} FileBelowIsListedFile(fs: FileSystem, prefix: string, dir: string, p: string, depth: nat)
    requires FileBelow(fs, prefix, dir, p, depth)
    ensures ListedFile(fs, p)
    decreases depth
  {
    if Entry(p, false) !in fs.listings[dir] {
      var e :| e in fs.listings[dir] && e.isDirectory && FileBelow(fs, prefix, prefix + e.absolutePath, p, depth - 1);
      FileBelowIsListedFile(fs, prefix, prefix + e.absolutePath, p, depth - 1);
    }
  }

  /**
   * `getResourcePaths` returns only non-directory entries, and the empty set
   * when the resolved path has no listing.
   */
  lemma ResourcePathsAreFiles(fs: FileSystem, basePath: string, path: string, depth: nat)
    ensures depth > 0 && basePath + path !in fs.listings ==> ResourcePaths(fs, basePath, path, depth) == Success({})
    ensures ResourcePaths(fs, basePath, path, depth).Success? ==>
      forall p :: p in ResourcePaths(fs, basePath, path, depth).value ==> ListedFile(fs, p)
  {
    if ResourcePaths(fs, basePath, path, depth).Success? {
      forall p | p in ResourcePaths(fs, basePath, path, depth).value
        ensures ListedFile(fs, p)
      {
        WalkExact(fs, basePath + path, basePath, depth, p);
        FileBelowIsListedFile(fs, basePath, basePath + path, p, depth);
      }
    }
  }

  /**
   * The corrected walk finds exactly the files below the resolved directory,
   * each sub-directory being listed at its own absolute path.
   */
  lemma CorrectedFindsAllDescendants(fs: FileSystem, basePath: string, path: string, depth: nat, p: string)
    requires ResourcePathsCorrected(fs, basePath, path, depth).Success?
    ensures p in ResourcePathsCorrected(fs, basePath, path, depth).value <==> FileBelow(fs, "", basePath + path, p, depth)
  {
    WalkExact(fs, basePath + path, "", depth, p);
  }

  /**
   * A file one directory below the base path is missed as written. With the
   * base path `"/srv/./"` that `build` produces for the working directory
   * `/srv`, the sub-directory is listed at `"/srv/./" + "/srv/./WEB-INF"`,
   * which has no listing, while the corrected walk finds the file.
   */
  lemma NestedResourceMissed()
    ensures var fs := FileSystem(
        map["/srv/./" := [Entry("/srv/./WEB-INF", true)],
            "/srv/./WEB-INF" := [Entry("/srv/./WEB-INF/app.js", false)]],
        {"/srv/./WEB-INF/app.js"});
      && FileBelow(fs, "", "/srv/./", "/srv/./WEB-INF/app.js", 3)
      && ResourcePaths(fs, "/srv/./", "", 3) == Success({})
      && ResourcePathsCorrected(fs, "/srv/./", "", 3) == Success({"/srv/./WEB-INF/app.js"})
  {
    var fs := FileSystem(
      map["/srv/./" := [Entry("/srv/./WEB-INF", true)],
          "/srv/./WEB-INF" := [Entry("/srv/./WEB-INF/app.js", false)]],
      {"/srv/./WEB-INF/app.js"});
    var sub := Entry("/srv/./WEB-INF", true);
    assert "/srv/./" + "" == "/srv/./";
    assert "" + sub.absolutePath == "/srv/./WEB-INF";
    assert |"/srv/./" + sub.absolutePath| == 21;
    assert "/srv/./" + sub.absolutePath !in fs.listings;
    assert [sub][..0] == [];
    assert [Entry("/srv/./WEB-INF/app.js", false)][..0] == [];
    assert Walk(fs, "/srv/./" + sub.absolutePath, "/srv/./", 2) == Success({});
    var top := [sub];
    assert top[..|top| - 1] == [];
    assert top[|top| - 1] == sub;
    assert Collect(fs, top[..|top| - 1], "/srv/./", 2) == Success({});
    var none: set<string> := {};
    assert none + none == none;
    assert Collect(fs, [sub], "/srv/./", 2) == Success({});
    assert FileBelow(fs, "", "/srv/./WEB-INF", "/srv/./WEB-INF/app.js", 2);
  }

  // ---------------------------------------------------------------------
  // Builder and context
  // ---------------------------------------------------------------------

  /**
   * `NettyServletContext.Builder`. The context built from it keeps a
   * reference to it, so attribute changes made through the context are
   * changes of the builder's map.
   */
  class Builder<V> {
    var contextPath: string
    var attributes: map<string, V>
    const initParams: map<string, string>
    var basePath: string

    constructor ()
      ensures contextPath == "" && attributes == map[] && initParams == map[] && basePath == "/"
    {
      contextPath := "";
      attributes := map[];
      initParams := map[];
      basePath := "/";
    }

    /** `putAttribute`: binds `s` to `o`, returns the builder itself. */
    method PutAttribute(s: string, o: V) returns (self: Builder<V>)
      modifies this
      ensures self == this
      ensures attributes == old(attributes)[s := o]
      ensures contextPath == old(contextPath) && basePath == old(basePath)
    {
      attributes := attributes[s := o];
      self := this;
    }

    /** `contextPath`: sets the context path, returns the builder itself. */
    method ContextPath(s: string) returns (self: Builder<V>)
      modifies this
      ensures self == this
      ensures contextPath == s
      ensures attributes == old(attributes) && basePath == old(basePath)
    {
      contextPath := s;
      self := this;
    }

    /**
     * `build`: the base path becomes the absolute path of `new File(".")`
     * (given as `dotAbsolutePath`) followed by `/`.
     */
    method Build(dotAbsolutePath: string) returns (ctx: NettyServletContext<V>)
      modifies this
      ensures fresh(ctx) && ctx.b == this
      ensures basePath == dotAbsolutePath + "/"
      ensures contextPath == old(contextPath) && attributes == old(attributes)
    {
      basePath := dotAbsolutePath + "/";
      ctx := new NettyServletContext(this);
    }
  }

  /** The operations of `NettyServletContext` that always throw UnsupportedOperationException. */
  datatype UnsupportedCall =
    | GetContextCall(uripath: string)
    | GetMimeTypeCall(file: string)
    | GetRequestDispatcherCall(path: string)
    | GetNamedDispatcherCall(name: string)
    | GetServletCall(name: string)
    | GetServletsCall
    | GetServletNamesCall

  class NettyServletContext<V> {
    const b: Builder<V>

    constructor (b: Builder<V>)
      ensures this.b == b
    {
      this.b := b;
    }

    /** `getContextPath`: the builder's current context path, "" unless `contextPath` set one. */
    function GetContextPath(): (p: string)
      reads b
      ensures p == b.contextPath
    {
      b.contextPath
    }

    /** `getMajorVersion` and `getMinorVersion`: the Servlet API 2.5. */
    function GetMajorVersion(): (v: int)
      ensures v == 2
    {
      2
    }

    function GetMinorVersion(): (v: int)
      ensures v == 5
    {
      5
    }

    /** `getServerInfo`. */
    function GetServerInfo(): (info: string)
      ensures info == "Netty-Atmosphere/1.0"
    {
      "Netty-Atmosphere/1.0"
    }

    /** `getServletContextName`. */
    function GetServletContextName(): (name: string)
      ensures name == "Atmosphere"
    {
      "Atmosphere"
    }

    /**
     * `getContext`, `getMimeType`, `getRequestDispatcher`,
     * `getNamedDispatcher`, `getServlet`, `getServlets`, `getServletNames`.
     */
    function Unsupported(call: UnsupportedCall): (r: Outcome<Fault>)
      ensures r == Fail(UnsupportedOperation)
    {
      Fail(UnsupportedOperation)
    }

    /** The text `getResource`, `getResourceAsStream` and `getRealPath` hand to `URI.create`. */
    function FileUri(path: string): (u: string)
      reads b
    {
      "file://" + b.basePath + path
    }

    /**
     * `getResourcePaths`: the recursive walk, with `depth` standing for the
     * stack frames the JVM has left.
     */
    method GetResourcePaths(path: string, fs: FileSystem, depth: nat) returns (r: Result<set<string>, Fault>)
      ensures r == ResourcePaths(fs, b.basePath, path, depth)
      decreases depth
    {
      if depth == 0 {
        return Failure(StackOverflow);
      }
      var dir := b.basePath + path;
      if dir !in fs.listings {
        return Success({});
      }
      var files := fs.listings[dir];
      var s: set<string> := {};
      var i := 0;
      while i < |files|
        invariant 0 <= i <= |files|
        invariant Collect(fs, files[..i], b.basePath, depth - 1) == Success(s)
      {
        var f := files[i];
        assert files[..i + 1][..i] == files[..i];
        assert files[..i + 1][i] == f;
        if f.isDirectory {
          var inner := GetResourcePaths(f.absolutePath, fs, depth - 1);
          if inner.Failure? {
            CollectFailurePersists(fs, files, b.basePath, depth - 1, i + 1);
            return inner;
          }
          s := s + inner.value;
        } else {
          s := s + {f.absolutePath};
        }
        i := i + 1;
      }
      assert files[..|files|] == files;
      r := Success(s);
    }

    /**
     * `getResource`: `URI.create(..)` throws IllegalArgumentException on bad
     * syntax and `toURL()` throws MalformedURLException; both escape.
     */
    function GetResource(path: string, lib: UriLibrary): (r: Result<string, Fault>)
      reads b
      ensures r.Success? <==> lib.parses(FileUri(path)) && lib.toUrl(FileUri(path)).Some?
      ensures r.Success? ==> Some(r.value) == lib.toUrl(FileUri(path))
      ensures r.Failure? && !lib.parses(FileUri(path)) ==> r.error == IllegalArgument
      ensures r.Failure? && lib.parses(FileUri(path)) ==> r.error == MalformedURL
    {
      var u := FileUri(path);
      if !lib.parses(u) then Failure(IllegalArgument)
      else match lib.toUrl(u)
        case None => Failure(MalformedURL)
        case Some(url) => Success(url)
    }

    /**
     * `getResourceAsStream`: a stream on the resolved file, or `None` when
     * `FileInputStream` throws FileNotFoundException (which is caught);
     * only the unchecked exceptions of `URI.create` and `new File(URI)` escape.
     */
    function GetResourceAsStream(path: string, fs: FileSystem, lib: UriLibrary): (r: Result<Option<InputStream>, Fault>)
      reads b
      ensures r.Failure? <==> !lib.parses(FileUri(path)) || lib.filePath(FileUri(path)).None?
      ensures r.Failure? ==> r.error == IllegalArgument
      ensures r.Success? ==> (r.value.Some? <==> lib.filePath(FileUri(path)).value in fs.files)
      ensures r.Success? && r.value.Some? ==> r.value.value == FileStream(lib.filePath(FileUri(path)).value)
    {
      var u := FileUri(path);
      if !lib.parses(u) then Failure(IllegalArgument)
      else match lib.filePath(u)
        case None => Failure(IllegalArgument)
        case Some(p) => if p in fs.files then Success(Some(FileStream(p))) else Success(None)
    }

    /**
     * `getRealPath`: the URL text of the resolved path; a MalformedURLException
     * is caught and gives `null`, a syntax error escapes.
     */
    function GetRealPath(path: string, lib: UriLibrary): (r: Result<Option<string>, Fault>)
      reads b
      ensures r.Failure? <==> !lib.parses(FileUri(path))
      ensures r.Failure? ==> r.error == IllegalArgument
      ensures r.Success? ==> r.value == lib.toUrl(FileUri(path))
    {
      var u := FileUri(path);
      if !lib.parses(u) then Failure(IllegalArgument) else Success(lib.toUrl(u))
    }

    /** `getInitParameter`: a lookup in the builder's init parameters. */
    function GetInitParameter(name: string): (r: Option<string>)
      ensures r.Some? <==> name in b.initParams
      ensures r.Some? ==> r.value == b.initParams[name]
    {
      Get(b.initParams, name)
    }

    /** `getInitParameterNames`: enumerates the map's VALUES, not its keys. */
    method GetInitParameterNames() returns (names: seq<string>, ghost order: seq<string>)
      ensures EnumeratesValues(b.initParams, names, order)
      ensures |names| == |b.initParams|
      ensures forall n :: n in names <==> n in b.initParams.Values
    {
      names, order := EnumerateValues(b.initParams);
    }

    /** `getAttribute`: the bound value, or `None` (Java `null`). */
    function GetAttribute(name: string): (r: Option<V>)
      reads b
      ensures r.Some? <==> name in b.attributes
      ensures r.Some? ==> r.value == b.attributes[name]
    {
      Get(b.attributes, name)
    }

    /** `getAttributeNames`: every current attribute name exactly once. */
    method GetAttributeNames() returns (names: seq<string>)
      ensures Distinct(names)
      ensures |names| == |b.attributes|
      ensures forall n :: n in names <==> GetAttribute(n).Some?
    {
      names := EnumerateKeys(b.attributes);
    }

    /** `setAttribute`: afterwards `name` yields `value`; every other name is unchanged. */
    method SetAttribute(name: string, value: V)
      modifies b
      ensures b.attributes == old(b.attributes)[name := value]
      ensures b.contextPath == old(b.contextPath) && b.basePath == old(b.basePath)
      ensures GetAttribute(name) == Some(value)
      ensures forall n :: n != name ==> GetAttribute(n) == old(GetAttribute(n))
    {
      b.attributes := b.attributes[name := value];
    }

    /** `removeAttribute`: afterwards `name` yields `None`; every other name is unchanged. */
    method RemoveAttribute(name: string)
      modifies b
      ensures b.attributes == old(b.attributes) - {name}
      ensures b.contextPath == old(b.contextPath) && b.basePath == old(b.basePath)
      ensures GetAttribute(name) == None
      ensures forall n :: n != name ==> GetAttribute(n) == old(GetAttribute(n))
    {
      b.attributes := b.attributes - {name};
    }
  }

  /** A missing file is a silent `None`, never a failure. */
  lemma AbsentResourceIsNoStream<V>(ctx: NettyServletContext<V>, path: string, fs: FileSystem, lib: UriLibrary)
    requires lib.parses(ctx.FileUri(path))
    requires lib.filePath(ctx.FileUri(path)).Some? && lib.filePath(ctx.FileUri(path)).value !in fs.files
    ensures ctx.GetResourceAsStream(path, fs, lib) == Success(None)
  {
  }

  /** `NettyServletConfig`: the servlet name, the context, and the init parameters it was given. */
  datatype NettyServletConfig<V> = NettyServletConfig(initParams: map<string, string>, context: NettyServletContext<V>)
  {
    /** `getServletName`. */
    function GetServletName(): (name: string)
      ensures name == "AtmosphereServlet"
    {
      "AtmosphereServlet"
    }

    /** `getServletContext`: the very context object the config was created with. */
    function GetServletContext(): (ctx: NettyServletContext<V>)
      ensures ctx == context
    {
      context
    }

    /** `getInitParameter`: a lookup in the init parameters. */
    function GetInitParameter(name: string): (r: Option<string>)
      ensures r.Some? <==> name in initParams
      ensures r.Some? ==> r.value == initParams[name]
    {
      Get(initParams, name)
    }

    /** `getInitParameterNames` as written: enumerates the map's VALUES. */
    method GetInitParameterNames() returns (names: seq<string>, ghost order: seq<string>)
      ensures EnumeratesValues(initParams, names, order)
      ensures |names| == |initParams|
      ensures forall n :: n in names <==> n in initParams.Values
    {
      names, order := EnumerateValues(initParams);
    }

    /** The evidently intended enumeration: every name that `GetInitParameter` resolves, once. */
    method GetInitParameterNamesCorrected() returns (names: seq<string>)
      ensures Distinct(names)
      ensures |names| == |initParams|
      ensures forall n :: n in names <==> GetInitParameter(n).Some?
    {
      names := EnumerateKeys(initParams);
    }
  }

  /**
   * With the single parameter `org.atmosphere.useNative = true`, the names
   * enumerated as written are `["true"]`, a name `getInitParameter` does not
   * resolve, and the real name is missing.
   */
  lemma InitParameterNamesAreValues(names: seq<string>, order: seq<string>)
    requires EnumeratesValues(map["org.atmosphere.useNative" := "true"], names, order)
    ensures "true" in names
    ensures forall n :: n in names ==> n == "true"
    ensures Get(map["org.atmosphere.useNative" := "true"], "true") == None
    ensures "org.atmosphere.useNative" !in names
  {
    var m := map["org.atmosphere.useNative" := "true"];
    var key := "org.atmosphere.useNative";
    assert key in order;
    var i :| 0 <= i < |order| && order[i] == key;
    assert names[i] == "true";
    assert "true" != key;
  }
}
