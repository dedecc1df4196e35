/**
 * The path classification in metricsHandler.ServeHTTP
 * (src/frontend/middleware.go:96-126): a raw URL path becomes the `path`
 * label of the HTTP metrics and the `handler` label of the handler-time
 * histogram.
 */
module Routes {
  import opened Text

  datatype Route = Route(path: string, handler: string)

  /** The handler name of a path that none of the fixed routes matched. */
  function SegmentHandler(path: string): (h: string)
    ensures h != [] && '/' !in h
    ensures h == "unknown" || HasPrefix(Trim(path, '/'), h)
  {
    var first := FirstSegment(Trim(path, '/'));
    if first != "" then first else "unknown"
  }

  function Classify(path: string): (r: Route)
    // the two product routes replace the raw path by a fixed template
    ensures Contains(path, "/product/") ==> r == Route("/product/{id}", "product")
    ensures !Contains(path, "/product/") && Contains(path, "/product-meta/") ==>
      r == Route("/product-meta/{ids}", "product-meta")
    // and they are the only ones that do
    ensures r.path != path ==> Contains(path, "/product/") || Contains(path, "/product-meta/")
    // a handler label is never empty and never holds a slash
    ensures r.handler != [] && '/' !in r.handler
  {
    if Contains(path, "/product/") then Route("/product/{id}", "product")
    else if Contains(path, "/product-meta/") then Route("/product-meta/{ids}", "product-meta")
    else Route(path, PageHandler(path))
  }

  /** The handler name of a path outside the product routes. */
  function PageHandler(path: string): (h: string)
    ensures h != [] && '/' !in h
  {
    if path == "/" then "home"
    else if path == "/cart" then "cart"
    else if path == "/cart/checkout" then "checkout"
    else if path == "/set_currency" then "set-currency"
    else if HasPrefix(path, "/static/") then "static"
    else if path == "/_healthz" then "health"
    else SegmentHandler(path)
  }

  /** The exact page routes keep their path and get their fixed handler names. */
  lemma ClassifyPages()
    ensures Classify("/") == Route("/", "home")
    ensures Classify("/cart") == Route("/cart", "cart")
    ensures Classify("/cart/checkout") == Route("/cart/checkout", "checkout")
  {
    NoProductRoute("/");
    NoProductRoute("/cart");
    NoProductRoute("/cart/checkout");
  }

  /** The currency form target keeps its path and is labelled "set-currency". */
  lemma ClassifySetCurrency()
    ensures Classify("/set_currency") == Route("/set_currency", "set-currency")
  {
    NoProductRoute("/set_currency");
    SetCurrencyPage();
  }

  /** The page chain reaches its set-currency case for the currency form target. */
  lemma SetCurrencyPage()
    ensures PageHandler("/set_currency") == "set-currency"
  {
    DiffersAt("/set_currency", "/cart", 1);
    DiffersAt("/set_currency", "/cart/checkout", 1);
  }

  /** The health check keeps its path and is labelled "health". */
  lemma ClassifyHealth()
    ensures Classify("/_healthz") == Route("/_healthz", "health")
  {
    NoProductRoute("/_healthz");
    HealthPage();
  }

  /** The page chain reaches its health case for the health check path. */
  lemma HealthPage()
    ensures PageHandler("/_healthz") == "health"
  {
    DiffersAt("/_healthz", "/cart", 1);
    DiffersAt("/_healthz", "/cart/checkout", 1);
    DiffersAt("/_healthz", "/set_currency", 1);
    NotStatic("/_healthz");
  }

  /** A path whose second character is not 's' is not under /static/. */
  lemma NotStatic(path: string)
    requires |path| > 1 && path[1] != 's'
    ensures !HasPrefix(path, "/static/")
  {
    if |path| >= 8 {
      assert path[..8][1] == path[1];
    }
  }

  /** A path without the letter 'p' matches neither product route. */
  lemma NoProductIn(path: string)
    requires 'p' !in path
    ensures !Contains(path, "/product/") && !Contains(path, "/product-meta/")
  {
    MissingChar(path, "/product/", 1);
    MissingChar(path, "/product-meta/", 1);
  }

  /** A path without the letter 'p' keeps its raw path and is labelled by the page routes. */
  lemma NoProductRoute(path: string)
    requires 'p' !in path
    ensures Classify(path) == Route(path, PageHandler(path))
  {
    NoProductIn(path);
  }

  /** A string lacking one of `sub`'s characters does not contain `sub`. */
  lemma MissingChar(s: string, sub: string, j: nat)
    requires j < |sub| && sub[j] !in s
    ensures !Contains(s, sub)
  {
    forall i | 0 <= i && i + |sub| <= |s|
      ensures !OccursAt(s, sub, i)
    {
      assert s[i..i + |sub|][j] == s[i + j] != sub[j];
    }
    ContainsIff(s, sub);
  }

  /** Every product page is classified alike, whatever its id. */
  lemma ProductIdIrrelevant(prefix: string, a: string, b: string)
    ensures Classify(prefix + "/product/" + a) == Classify(prefix + "/product/" + b)
    ensures Classify(prefix + "/product/" + a) == Route("/product/{id}", "product")
  {
    ContainsAt(prefix, "/product/", a);
    ContainsAt(prefix, "/product/", b);
  }

  /** A path under /static/ is labelled "static" and keeps its raw path. */
  lemma ClassifyStatic(rest: string)
    requires !Contains("/static/" + rest, "/product/") && !Contains("/static/" + rest, "/product-meta/")
    ensures Classify("/static/" + rest) == Route("/static/" + rest, "static")
  {
    var p := "/static/" + rest;
    assert p[..|"/static/"|] == "/static/";
    assert p[1] == 's' && p[2] == 't';
  }

  /** Any other path keeps its raw path and is labelled by its first segment, or
      "unknown" when that segment is empty. */
  lemma ClassifyOther(path: string)
    requires !Contains(path, "/product/") && !Contains(path, "/product-meta/")
    requires path !in {"/", "/cart", "/cart/checkout", "/set_currency", "/_healthz"}
    requires !HasPrefix(path, "/static/")
    ensures Classify(path).path == path
    ensures var first := FirstSegment(Trim(path, '/'));
      Classify(path).handler == if first == [] then "unknown" else first
  {
    FallThrough(path);
  }

  /** A path under /cart/ other than the checkout page keeps its raw path, id
      included, and is labelled "cart": every id yields its own `path` label. */
  lemma CartSubpathEchoed(id: string)
    requires id != [] && '/' !in id && id != "checkout"
    ensures Classify("/cart/" + id) == Route("/cart/" + id, "cart")
  {
    var path := "/cart/" + id;
    NoProductUnderCart(id);
    CartNotFixedPage(id);
    CartSegment(id);
  }

  /** No fixed page route matches a /cart/<id> path other than the checkout page. */
  lemma CartNotFixedPage(id: string)
    requires id != [] && id != "checkout"
    ensures PageHandler("/cart/" + id) == SegmentHandler("/cart/" + id)
  {
    CartNotExactPage(id);
    NotStatic("/cart/" + id);
    FallThrough("/cart/" + id);
  }

  /** A path that is none of the fixed pages is labelled by its first segment. */
  lemma FallThrough(path: string)
    requires path !in {"/", "/cart", "/cart/checkout", "/set_currency", "/_healthz"}
    requires !HasPrefix(path, "/static/")
    ensures PageHandler(path) == SegmentHandler(path)
  {
  }

  /** A /cart/<id> path is none of the exact page paths unless <id> is "checkout". */
  lemma CartNotExactPage(id: string)
    requires id != [] && id != "checkout"
    ensures "/cart/" + id !in {"/", "/cart", "/cart/checkout", "/set_currency", "/_healthz"}
  {
    var path := "/cart/" + id;
    assert path[1] == 'c' && |path| > 6;
    assert path[6..] == id && "/cart/checkout"[6..] == "checkout";
    DiffersAt(path, "/set_currency", 1);
    DiffersAt(path, "/_healthz", 1);
  }

  /** Two strings that differ at some position are different. */
  lemma DiffersAt(a: string, b: string, i: nat)
    requires i < |a| && i < |b| && a[i] != b[i]
    ensures a != b
  {
  }

  /** The first segment of a /cart/<id> path, trimmed of slashes, is "cart". */
  lemma CartSegment(id: string)
    requires id != [] && '/' !in id
    ensures SegmentHandler("/cart/" + id) == "cart"
  {
    var path := "/cart/" + id;
    var rest := "cart/" + id;
    assert path[1..] == rest;
    assert TrimLeft(rest, '/') == rest;
    assert TrimLeft(path, '/') == rest;
    assert rest[|rest| - 1] == id[|id| - 1] != '/';
    assert TrimRight(rest, '/') == rest;
    var first := FirstSegment(rest);
    assert rest[4] == '/' && '/' !in rest[..4];
    assert first == rest[..4] == "cart";
  }

  /** Below /cart/, slashes sit at positions 0 and 5 only, too close for a product route. */
  lemma NoProductUnderCart(id: string)
    requires '/' !in id
    ensures !Contains("/cart/" + id, "/product/") && !Contains("/cart/" + id, "/product-meta/")
  {
    var path := "/cart/" + id;
    forall i | 0 <= i && i + 9 <= |path|
      ensures !OccursAt(path, "/product/", i)
    {
      assert path[i + 8] == id[i + 2];
      assert path[i..i + 9][8] == path[i + 8];
    }
    forall i | 0 <= i && i + 14 <= |path|
      ensures !OccursAt(path, "/product-meta/", i)
    {
      assert path[i + 13] == id[i + 7];
      assert path[i..i + 14][13] == path[i + 13];
    }
    ContainsIff(path, "/product/");
    ContainsIff(path, "/product-meta/");
  }

  /** A path of two or more slashes and nothing else has an empty first segment and is labelled
      "unknown"; the single slash is the home page (`ClassifyPages`). */
  lemma SlashesUnknown(path: string)
    requires |path| >= 2
    requires forall i :: 0 <= i < |path| ==> path[i] == '/'
    ensures Classify(path) == Route(path, "unknown")
  {
    NoProductRoute(path);
    DiffersAt(path, "/cart", 1);
    DiffersAt(path, "/cart/checkout", 1);
    DiffersAt(path, "/set_currency", 1);
    DiffersAt(path, "/_healthz", 1);
    NotStatic(path);
    FallThrough(path);
    SlashesTrimmed(path);
  }

  /** Trimming slashes from a string of slashes leaves nothing. */
  lemma {:induction false} SlashesTrimmed(path: string)
    requires forall i :: 0 <= i < |path| ==> path[i] == '/'
    ensures TrimLeft(path, '/') == [] && Trim(path, '/') == []
    decreases |path|
  {
    if path != [] {
      SlashesTrimmed(path[1..]);
    }
  }
}
