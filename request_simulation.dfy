/** The request that LocalWarmer::warmUri simulates for one page. The source
    writes these values into the process-wide `$_SERVER` and `$_GET` and into the
    request component; here they are the fields of one record, computed from the
    page's URL already split by parse_url into scheme, host and path. */
module RequestSimulation {

  /** A URL as parse_url splits it. A URL without a path has path "". */
  datatype Url = Url(scheme: string, host: string, path: string)

  /** The values warmUri installs before it hands the request to the application. */
  datatype RequestContext = RequestContext(
    httpHost: string,               // $_SERVER['HTTP_HOST']
    serverName: string,             // $_SERVER['SERVER_NAME']
    https: bool,                    // $_SERVER['HTTPS']
    requestMethod: string,          // $_SERVER['REQUEST_METHOD']
    requestUri: string,             // $_SERVER['REQUEST_URI']
    queryString: string,            // $_SERVER['QUERY_STRING']
    getParams: map<string, string>, // $_GET
    hostInfo: string)               // Request::setHostInfo

  predicate AllSlashes(s: string)
  {
    forall i :: 0 <= i < |s| ==> s[i] == '/'
  }

  /** Neither starts nor ends with '/'. */
  predicate Trimmed(s: string)
  {
    s == [] || (s[0] != '/' && s[|s| - 1] != '/')
  }

  /** `s` without its leading slashes. */
  function TrimLeft(s: string): (r: string)
    ensures |r| <= |s|
    ensures r == [] || r[0] != '/'
  {
    if s != [] && s[0] == '/' then TrimLeft(s[1..]) else s
  }

  /** `s` without its trailing slashes. */
  function TrimRight(s: string): (r: string)
    ensures |r| <= |s|
    ensures r == [] || (r[0] == s[0] && r[|r| - 1] != '/')
  {
    if s != [] && s[|s| - 1] == '/' then TrimRight(s[..|s| - 1]) else s
  }

  /** TrimLeft drops a run of slashes from the front and keeps the rest. */
  lemma {:induction false} TrimLeftDropsSlashes(s: string)
    ensures var r := TrimLeft(s); r == s[|s| - |r|..] && AllSlashes(s[..|s| - |r|])
  {
    if s != [] && s[0] == '/' {
      TrimLeftDropsSlashes(s[1..]);
      var r := TrimLeft(s);
      assert s[1..][|s| - 1 - |r|..] == s[|s| - |r|..];
      assert forall i :: 1 <= i < |s| - |r| ==> s[i] == s[1..][..|s| - 1 - |r|][i - 1];
    }
  }

  /** TrimRight drops a run of slashes from the back and keeps the rest. */
  lemma {:induction false} TrimRightDropsSlashes(s: string)
    ensures var r := TrimRight(s); r == s[..|r|] && AllSlashes(s[|r|..])
  {
    if s != [] && s[|s| - 1] == '/' {
      var s' := s[..|s| - 1];
      TrimRightDropsSlashes(s');
      var r := TrimRight(s);
      assert s'[..|r|] == s[..|r|];
      assert forall i :: |r| <= i < |s| - 1 ==> s[i] == s'[|r|..][i - |r|];
    }
  }

  /** PHP's `trim($s, '/')`. */
  function TrimSlashes(s: string): (r: string)
    ensures Trimmed(r)
  {
    TrimRight(TrimLeft(s))
  }

  /** Trimming removes only slashes, and only at the two ends: the result is the
      slice of `s` between a run of leading and a run of trailing slashes. */
  lemma TrimSlashesSplit(s: string)
    ensures var r := TrimSlashes(s); var n := |s| - |TrimLeft(s)|;
      n + |r| <= |s| && s[n..n + |r|] == r && AllSlashes(s[..n]) && AllSlashes(s[n + |r|..])
  {
    var l := TrimLeft(s);
    var r := TrimRight(l);
    var n := |s| - |l|;
    TrimLeftDropsSlashes(s);
    TrimRightDropsSlashes(l);
    assert l == s[n..];
    assert r == l[..|r|];
    assert s[n..n + |r|] == r;
    assert AllSlashes(l[|r|..]);
    assert s[n + |r|..] == l[|r|..];
  }

  lemma {:induction false} TrimLeftPadded(a: string, x: string)
    requires AllSlashes(a)
    ensures TrimLeft(a + x) == TrimLeft(x)
  {
    if a == [] {
      assert a + x == x;
    } else {
      assert (a + x)[0] == '/';
      assert (a + x)[1..] == a[1..] + x;
      TrimLeftPadded(a[1..], x);
    }
  }

  lemma {:induction false} TrimRightPadded(x: string, b: string)
    requires AllSlashes(b)
    ensures TrimRight(x + b) == TrimRight(x)
  {
    if b == [] {
      assert x + b == x;
    } else {
      assert (x + b)[|x + b| - 1] == '/';
      assert (x + b)[..|x + b| - 1] == x + b[..|b| - 1];
      TrimRightPadded(x, b[..|b| - 1]);
    }
  }

  /** Trimming a trimmed string surrounded by slashes gives it back. */
  lemma TrimSlashesPadded(a: string, r: string, b: string)
    requires AllSlashes(a) && AllSlashes(b) && Trimmed(r)
    ensures TrimSlashes(a + r + b) == r
  {
    assert a + r + b == a + (r + b);
    TrimLeftPadded(a, r + b);
    if r == [] {
      assert r + b == b + [];
      TrimLeftPadded(b, []);
    } else {
      TrimRightPadded(r, b);
    }
  }

  lemma TrimSlashesIdempotent(s: string)
    ensures TrimSlashes(TrimSlashes(s)) == TrimSlashes(s)
  {
    var r := TrimSlashes(s);
    assert [] + r + [] == r;
    TrimSlashesPadded([], r, []);
  }

  /** The request warmUri simulates for a page whose URL is `url`: a GET to the
      URL's host, over HTTPS exactly when the scheme is "https", with host info
      "scheme://host". The page path `p` is the only query parameter; it is
      trimmed of slashes, and the request URI and the query string carry it. */
  function ContextFor(url: Url): (ctx: RequestContext)
    ensures ctx.getParams.Keys == {"p"} && Trimmed(ctx.getParams["p"])
    ensures ctx.requestUri == "/" + ctx.getParams["p"] && ctx.queryString == "p=" + ctx.getParams["p"]
    ensures ctx.https <==> url.scheme == "https"
  {
    var uri := TrimSlashes(url.path);
    RequestContext(
      httpHost := url.host,
      serverName := url.host,
      https := url.scheme == "https",
      requestMethod := "GET",
      requestUri := "/" + uri,
      queryString := "p=" + uri,
      getParams := map["p" := uri],
      hostInfo := url.scheme + "://" + url.host)
  }

  /** The page path is the URL path with its slashes trimmed, and trimming the
      request URI gives the same path back. */
  lemma ContextPath(url: Url)
    ensures var ctx := ContextFor(url);
      ctx.getParams["p"] == TrimSlashes(url.path)
      && TrimSlashes(ctx.requestUri) == ctx.getParams["p"]
  {
    var uri := TrimSlashes(url.path);
    assert "/" + uri == "/" + uri + [];
    TrimSlashesPadded("/", uri, []);
  }

  /** A page URL ending in a slash is simulated without it. */
  lemma TrailingSlashExample()
    ensures ContextFor(Url("https", "example.com", "/blog/post-1/")).getParams["p"] == "blog/post-1"
  {
    var r := "blog/post-1";
    assert "/blog/post-1/" == "/" + r + "/";
    TrimSlashesPadded("/", r, "/");
  }
}
