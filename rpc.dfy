/**
 * The frontend's calls to its backend services (src/frontend/rpc.go).
 *
 * The backends are an object that logs every call it is sent, in order, and
 * answers each from a fixed reply function: what a service answers is not
 * this layer's business, only which calls it makes, in which order, and what
 * it does with the answers. Every facade but getCurrencies and getProducts
 * also records one gRPC metric event per call on the process-wide registry.
 */
module Rpc {
  import opened Results
  import opened Text
  import opened Metrics

  /** The width of a protobuf int32 field. */
  newtype int32 = x: int | -0x8000_0000 <= x < 0x8000_0000

  datatype Money = Money(currencyCode: string, units: int, nanos: int)
  datatype CartItem = CartItem(productId: string, quantity: int32)
  datatype Product = Product(id: string, name: string, priceUsd: Money)
  datatype Ad = Ad(redirectUrl: string, text: string)

  /** A request sent to a backend service, named after its RPC. */
  datatype Call =
    | GetSupportedCurrencies
    | ListProducts
    | GetProduct(id: string)
    | GetCart(userId: string)
    | EmptyCart(userId: string)
    | AddItem(userId: string, item: CartItem)
    | Convert(from: Money, toCode: string)
    | GetQuote(items: seq<CartItem>)
    | ListRecommendations(userId: string, productIds: seq<string>)
    | GetAds(contextKeys: seq<string>)

  /**
   * The backend services as the frontend's connections reach them. `sent` is
   * every request issued so far; the reply to each kind of request is given
   * by the matching function (an `Err` carries the call's error text).
   */
  class Backends {
    var sent: seq<Call>
    const currencies: Result<seq<string>>
    const catalog: Result<seq<Product>>
    const product: string -> Result<Product>
    const cart: string -> Result<seq<CartItem>>
    const emptied: string -> Option<string>
    const added: (string, CartItem) -> Option<string>
    const convert: (Money, string) -> Result<Money>
    const quote: seq<CartItem> -> Result<Money>
    const recommend: (string, seq<string>) -> Result<seq<string>>
    const ads: seq<string> -> Result<seq<Ad>>

    constructor (currencies: Result<seq<string>>, catalog: Result<seq<Product>>,
                 product: string -> Result<Product>, cart: string -> Result<seq<CartItem>>,
                 emptied: string -> Option<string>, added: (string, CartItem) -> Option<string>,
                 convert: (Money, string) -> Result<Money>, quote: seq<CartItem> -> Result<Money>,
                 recommend: (string, seq<string>) -> Result<seq<string>>, ads: seq<string> -> Result<seq<Ad>>)
      ensures sent == []
      ensures this.currencies == currencies && this.catalog == catalog && this.product == product
      ensures this.cart == cart && this.emptied == emptied && this.added == added
      ensures this.convert == convert && this.quote == quote && this.recommend == recommend
      ensures this.ads == ads
    {
      sent := [];
      this.currencies, this.catalog, this.product, this.cart := currencies, catalog, product, cart;
      this.emptied, this.added, this.convert, this.quote := emptied, added, convert, quote;
      this.recommend, this.ads := recommend, ads;
    }

    method SupportedCurrencies() returns (r: Result<seq<string>>)
      modifies this
      ensures sent == old(sent) + [GetSupportedCurrencies] && r == currencies
    {
      sent := sent + [GetSupportedCurrencies];
      r := currencies;
    }

    method Products() returns (r: Result<seq<Product>>)
      modifies this
      ensures sent == old(sent) + [ListProducts] && r == catalog
    {
      sent := sent + [ListProducts];
      r := catalog;
    }

    method LookupProduct(id: string) returns (r: Result<Product>)
      modifies this
      ensures sent == old(sent) + [Call.GetProduct(id)] && r == product(id)
    {
      sent := sent + [Call.GetProduct(id)];
      r := product(id);
    }

    method CartOf(userId: string) returns (r: Result<seq<CartItem>>)
      modifies this
      ensures sent == old(sent) + [Call.GetCart(userId)] && r == cart(userId)
    {
      sent := sent + [Call.GetCart(userId)];
      r := cart(userId);
    }

    method Empty(userId: string) returns (err: Option<string>)
      modifies this
      ensures sent == old(sent) + [Call.EmptyCart(userId)] && err == emptied(userId)
    {
      sent := sent + [Call.EmptyCart(userId)];
      err := emptied(userId);
    }

    method Add(userId: string, item: CartItem) returns (err: Option<string>)
      modifies this
      ensures sent == old(sent) + [AddItem(userId, item)] && err == added(userId, item)
    {
      sent := sent + [AddItem(userId, item)];
      err := added(userId, item);
    }

    method Conversion(from: Money, toCode: string) returns (r: Result<Money>)
      modifies this
      ensures sent == old(sent) + [Convert(from, toCode)] && r == convert(from, toCode)
    {
      sent := sent + [Convert(from, toCode)];
      r := convert(from, toCode);
    }

    method Quote(items: seq<CartItem>) returns (r: Result<Money>)
      modifies this
      ensures sent == old(sent) + [GetQuote(items)] && r == quote(items)
    {
      sent := sent + [GetQuote(items)];
      r := quote(items);
    }

    method Recommend(userId: string, productIds: seq<string>) returns (r: Result<seq<string>>)
      modifies this
      ensures sent == old(sent) + [ListRecommendations(userId, productIds)] && r == recommend(userId, productIds)
    {
      sent := sent + [ListRecommendations(userId, productIds)];
      r := recommend(userId, productIds);
    }

    method Ads(contextKeys: seq<string>) returns (r: Result<seq<Ad>>)
      modifies this
      ensures sent == old(sent) + [GetAds(contextKeys)] && r == ads(contextKeys)
    {
      sent := sent + [GetAds(contextKeys)];
      r := ads(contextKeys);
    }
  }

  /** avoidNoopCurrencyConversionRPC, as declared. */
  const AvoidNoopConversion := false

  /** At most this many recommendations are returned, to fit the page. */
  const MaxRecommendations := 4

  /** The status label of a gRPC metric event. */
  function GrpcStatus(failed: bool): (s: string)
    ensures s == "error" <==> failed
    ensures s == "success" <==> !failed
  {
    if failed then "error" else "success"
  }

  /** The metric event a facade records for one call. */
  function GrpcEvent(service: string, rpc: string, failed: bool): Event {
    GrpcRequest(service, rpc, GrpcStatus(failed))
  }

  // ---------------------------------------------------------------------
  // getCurrencies: the whitelist filter

  /** The codes of `codes` that are in the whitelist, in their order, duplicates kept. */
  function Whitelisted(codes: seq<string>, whitelist: set<string>): seq<string>
    decreases |codes|
  {
    if codes == [] then []
    else
      var last := codes[|codes| - 1];
      Whitelisted(codes[..|codes| - 1], whitelist) + (if last in whitelist then [last] else [])
  }

  /** Filtering distributes over concatenation, so it keeps the relative order of what it keeps. */
  lemma {:induction false} WhitelistedAppend(a: seq<string>, b: seq<string>, whitelist: set<string>)
    ensures Whitelisted(a + b, whitelist) == Whitelisted(a, whitelist) + Whitelisted(b, whitelist)
    decreases |b|
  {
    if b != [] {
      var b' := b[..|b| - 1];
      assert (a + b)[..|a + b| - 1] == a + b';
      WhitelistedAppend(a, b', whitelist);
    } else {
      assert a + b == a;
    }
  }

  /** Each whitelisted code occurs as often as in the reply; every other code is dropped. */
  lemma {:induction false} WhitelistedCounts(codes: seq<string>, whitelist: set<string>, c: string)
    ensures multiset(Whitelisted(codes, whitelist))[c] == if c in whitelist then multiset(codes)[c] else 0
    decreases |codes|
  {
    if codes != [] {
      var init := codes[..|codes| - 1];
      WhitelistedCounts(init, whitelist, c);
      assert codes == init + [codes[|codes| - 1]];
    }
  }

  /** A code is returned exactly when the service listed it and it is whitelisted. */
  lemma WhitelistedMembers(codes: seq<string>, whitelist: set<string>, c: string)
    ensures c in Whitelisted(codes, whitelist) <==> c in codes && c in whitelist
  {
    WhitelistedCounts(codes, whitelist, c);
    assert c in Whitelisted(codes, whitelist) <==> multiset(Whitelisted(codes, whitelist))[c] > 0;
    assert c in codes <==> multiset(codes)[c] > 0;
  }

  // ---------------------------------------------------------------------
  // getRecommendations: the product lookups

  /** The number of ids whose lookup succeeds before the first failure (all of them if none fails). */
  function FirstFailure(ids: seq<string>, lookup: string -> Result<Product>): (k: nat)
    ensures k <= |ids|
    ensures forall j :: 0 <= j < k ==> lookup(ids[j]).Ok?
    ensures k < |ids| ==> lookup(ids[k]).Err?
    decreases |ids|
  {
    if ids == [] || lookup(ids[0]).Err? then 0 else 1 + FirstFailure(ids[1..], lookup)
  }

  /** The start of the error getRecommendations returns for a failed lookup. */
  const LookupContext := "failed to get recommended product info (#"

  /** The error getRecommendations returns when the lookup of `id` fails with `cause`. */
  function LookupError(id: string, cause: string): string {
    Wrap(LookupContext + id + ")", cause)
  }

  /** What getRecommendations returns once the recommender has answered `ids`. */
  function Recommendations(ids: seq<string>, lookup: string -> Result<Product>): Result<seq<Product>> {
    var k := FirstFailure(ids, lookup);
    if k < |ids| then Err(LookupError(ids[k], lookup(ids[k]).msg))
    else
      var n := if |ids| > MaxRecommendations then MaxRecommendations else |ids|;
      Ok(seq(n, i requires 0 <= i < n => lookup(ids[i]).value))
  }

  /** The GetProduct requests for `ids`, in order. */
  function LookupCalls(ids: seq<string>): (calls: seq<Call>)
    ensures |calls| == |ids|
    ensures forall i :: 0 <= i < |ids| ==> calls[i] == Call.GetProduct(ids[i])
  {
    seq(|ids|, i requires 0 <= i < |ids| => Call.GetProduct(ids[i]))
  }

  /** The metric events of looking up `ids`, in order. */
  function LookupEvents(ids: seq<string>, lookup: string -> Result<Product>): (evs: seq<Event>)
    ensures |evs| == |ids|
    ensures forall i :: 0 <= i < |ids| ==>
      evs[i] == GrpcEvent("ProductCatalogService", "GetProduct", lookup(ids[i]).Err?)
  {
    seq(|ids|, i requires 0 <= i < |ids| => GrpcEvent("ProductCatalogService", "GetProduct", lookup(ids[i]).Err?))
  }

  /** How many ids getRecommendations looks up: up to and including the first failure. */
  function Attempted(ids: seq<string>, lookup: string -> Result<Product>): (m: nat)
    ensures m <= |ids|
  {
    var k := FirstFailure(ids, lookup);
    if k < |ids| then k + 1 else k
  }

  /** All or nothing: the recommendations are returned iff every lookup succeeds, and then
      they are the first four products, in the recommender's order. */
  lemma RecommendationsSucceed(ids: seq<string>, lookup: string -> Result<Product>)
    ensures Recommendations(ids, lookup).Ok? <==> forall j :: 0 <= j < |ids| ==> lookup(ids[j]).Ok?
    ensures Recommendations(ids, lookup).Ok? ==>
      var ps := Recommendations(ids, lookup).value;
      && |ps| == (if |ids| > MaxRecommendations then MaxRecommendations else |ids|)
      && forall i :: 0 <= i < |ps| ==> ps[i] == lookup(ids[i]).value
  {
  }

  /** On failure the error is about the first id whose lookup failed, and no later id
      was looked up. */
  lemma RecommendationsFail(ids: seq<string>, lookup: string -> Result<Product>)
    requires Recommendations(ids, lookup).Err?
    ensures var k := FirstFailure(ids, lookup);
      && k < |ids| && lookup(ids[k]).Err?
      && (forall j :: 0 <= j < k ==> lookup(ids[j]).Ok?)
      && Attempted(ids, lookup) == k + 1
      && Recommendations(ids, lookup).msg == LookupError(ids[k], lookup(ids[k]).msg)
  {
    var k := FirstFailure(ids, lookup);
    assert k < |ids|;
    assert Attempted(ids, lookup) == k + 1;
  }

  /** The lookup error names the failing id and ends with the lookup's own error. */
  lemma LookupErrorNamesId(id: string, cause: string)
    ensures Contains(LookupError(id, cause), id)
    ensures HasPrefix(LookupError(id, cause), LookupContext)
    ensures |cause| <= |LookupError(id, cause)|
    ensures LookupError(id, cause)[|LookupError(id, cause)| - |cause|..] == cause
  {
    var rest := ")" + ": " + cause;
    assert LookupError(id, cause) == LookupContext + id + rest;
    ContainsAt(LookupContext, id, rest);
  }

  /** A recommendation list never has more than four products, whatever the recommender says. */
  lemma RecommendationsBounded(ids: seq<string>, lookup: string -> Result<Product>)
    ensures Recommendations(ids, lookup).Ok? ==> |Recommendations(ids, lookup).value| <= MaxRecommendations
  {
  }

  // ---------------------------------------------------------------------
  // getShippingQuote

  /** The quote in the user's currency: the quote error unwrapped, a conversion error wrapped. */
  function ShippingQuote(quote: Result<Money>, converted: Money -> Result<Money>): (r: Result<Money>)
    ensures quote.Err? ==> r == Err(quote.msg)
    ensures quote.Ok? ==> r == WrapErr(converted(quote.value), "failed to convert currency for shipping cost")
  {
    match quote
    case Err(e) => Err(e)
    case Ok(q) => WrapErr(converted(q), "failed to convert currency for shipping cost")
  }

  // ---------------------------------------------------------------------
  // The facades

  /**
   * frontendServer as far as rpc.go uses it: the backend connections, the
   * process-wide metrics registry, and the whitelisted currency codes.
   */
  class Frontend {
    const backends: Backends
    const metrics: Registry
    const whitelist: set<string>

    constructor (backends: Backends, metrics: Registry, whitelist: set<string>)
      ensures this.backends == backends && this.metrics == metrics && this.whitelist == whitelist
    {
      this.backends, this.metrics, this.whitelist := backends, metrics, whitelist;
    }

    /** getCurrencies (rpc.go:30-43): the supported codes, whitelisted; no metric event. */
    method GetCurrencies() returns (r: Result<seq<string>>)
      modifies backends
      ensures backends.sent == old(backends.sent) + [GetSupportedCurrencies]
      ensures backends.currencies.Err? ==> r == Err(backends.currencies.msg)
      ensures backends.currencies.Ok? ==> r == Ok(Whitelisted(backends.currencies.value, whitelist))
    {
      var currs := backends.SupportedCurrencies();
      if currs.Err? {
        return Err(currs.msg);
      }
      var codes := currs.value;
      var out := [];
      for i := 0 to |codes|
        invariant out == Whitelisted(codes[..i], whitelist)
      {
        assert codes[..i + 1][..i] == codes[..i];
        if codes[i] in whitelist {
          out := out + [codes[i]];
        }
      }
      assert codes[..|codes|] == codes;
      r := Ok(out);
    }

    /** getProducts (rpc.go:45-49): the catalogue, with no metric event. */
    method GetProducts() returns (r: Result<seq<Product>>)
      modifies backends
      ensures backends.sent == old(backends.sent) + [ListProducts] && r == backends.catalog
    {
      r := backends.Products();
    }

    /** getProduct (rpc.go:51-64). */
    method GetProduct(id: string) returns (r: Result<Product>)
      modifies backends, metrics
      ensures backends.sent == old(backends.sent) + [Call.GetProduct(id)]
      ensures r == backends.product(id)
      ensures metrics.trace == old(metrics.trace) + [GrpcEvent("ProductCatalogService", "GetProduct", r.Err?)]
      ensures metrics.Snap() == Record(old(metrics.Snap()), GrpcEvent("ProductCatalogService", "GetProduct", r.Err?))
    {
      r := backends.LookupProduct(id);
      metrics.RecordGRPCRequest("ProductCatalogService", "GetProduct", GrpcStatus(r.Err?));
    }

    /** getCart (rpc.go:66-78). */
    method GetCart(userId: string) returns (r: Result<seq<CartItem>>)
      modifies backends, metrics
      ensures backends.sent == old(backends.sent) + [Call.GetCart(userId)]
      ensures r == backends.cart(userId)
      ensures metrics.trace == old(metrics.trace) + [GrpcEvent("CartService", "GetCart", r.Err?)]
      ensures metrics.Snap() == Record(old(metrics.Snap()), GrpcEvent("CartService", "GetCart", r.Err?))
    {
      r := backends.CartOf(userId);
      metrics.RecordGRPCRequest("CartService", "GetCart", GrpcStatus(r.Err?));
    }

    /** emptyCart (rpc.go:80-92); returns the error, None for nil. */
    method EmptyCart(userId: string) returns (err: Option<string>)
      modifies backends, metrics
      ensures backends.sent == old(backends.sent) + [Call.EmptyCart(userId)]
      ensures err == backends.emptied(userId)
      ensures metrics.trace == old(metrics.trace) + [GrpcEvent("CartService", "EmptyCart", err.Some?)]
      ensures metrics.Snap() == Record(old(metrics.Snap()), GrpcEvent("CartService", "EmptyCart", err.Some?))
    {
      err := backends.Empty(userId);
      metrics.RecordGRPCRequest("CartService", "EmptyCart", GrpcStatus(err.Some?));
    }

    /** insertCart (rpc.go:94-111): one AddItem request carrying the product and quantity. */
    method InsertCart(userId: string, productId: string, quantity: int32) returns (err: Option<string>)
      modifies backends, metrics
      ensures backends.sent == old(backends.sent) + [AddItem(userId, CartItem(productId, quantity))]
      ensures err == backends.added(userId, CartItem(productId, quantity))
      ensures metrics.trace == old(metrics.trace) + [GrpcEvent("CartService", "AddItem", err.Some?)]
      ensures metrics.Snap() == Record(old(metrics.Snap()), GrpcEvent("CartService", "AddItem", err.Some?))
    {
      err := backends.Add(userId, CartItem(productId, quantity));
      metrics.RecordGRPCRequest("CartService", "AddItem", GrpcStatus(err.Some?));
    }

    /** convertCurrency (rpc.go:113-132), with the avoidNoopCurrencyConversionRPC switch
        as the parameter `avoidNoop`. */
    method ConvertCurrency(money: Money, currency: string, avoidNoop: bool) returns (r: Result<Money>)
      modifies backends, metrics
      ensures avoidNoop && money.currencyCode == currency ==>
        r == Ok(money) && backends.sent == old(backends.sent) && unchanged(metrics)
      ensures !(avoidNoop && money.currencyCode == currency) ==>
        && backends.sent == old(backends.sent) + [Convert(money, currency)]
        && r == backends.convert(money, currency)
        && metrics.trace == old(metrics.trace) + [GrpcEvent("CurrencyService", "Convert", r.Err?)]
        && metrics.Snap() == Record(old(metrics.Snap()), GrpcEvent("CurrencyService", "Convert", r.Err?))
    {
      if avoidNoop && money.currencyCode == currency {
        return Ok(money);
      }
      r := backends.Conversion(money, currency);
      metrics.RecordGRPCRequest("CurrencyService", "Convert", GrpcStatus(r.Err?));
    }

    /** getShippingQuote (rpc.go:134-153): a quote, then its conversion when the quote succeeded. */
    method GetShippingQuote(items: seq<CartItem>, currency: string) returns (r: Result<Money>)
      modifies backends, metrics
      ensures var q := backends.quote(items);
        && r == ShippingQuote(q, (m: Money) => backends.convert(m, currency))
        && backends.sent == old(backends.sent) + [GetQuote(items)] +
             (if q.Ok? then [Convert(q.value, currency)] else [])
        && metrics.trace == old(metrics.trace) + [GrpcEvent("ShippingService", "GetQuote", q.Err?)] +
             (if q.Ok? then [GrpcEvent("CurrencyService", "Convert", backends.convert(q.value, currency).Err?)] else [])
    ensures var q := backends.quote(items);
      var quoted := Record(old(metrics.Snap()), GrpcEvent("ShippingService", "GetQuote", q.Err?));
      metrics.Snap() ==
        if q.Ok? then Record(quoted, GrpcEvent("CurrencyService", "Convert", backends.convert(q.value, currency).Err?))
        else quoted
    {
      var quote := backends.Quote(items);
      metrics.RecordGRPCRequest("ShippingService", "GetQuote", GrpcStatus(quote.Err?));
      if quote.Err? {
        return Err(quote.msg);
      }
      var localized := ConvertCurrency(quote.value, currency, AvoidNoopConversion);
      r := WrapErr(localized, "failed to convert currency for shipping cost");
    }

    /**
     * getRecommendations (rpc.go:155-181): the recommender's ids, each looked
     * up in turn through getProduct, stopping at the first failure; the first
     * four products when all succeed.
     */
    method GetRecommendations(userId: string, productIds: seq<string>) returns (r: Result<seq<Product>>)
      modifies backends, metrics
      ensures var rec := backends.recommend(userId, productIds);
        var listed := [ListRecommendations(userId, productIds)];
        var listEvent := GrpcEvent("RecommendationService", "ListRecommendations", rec.Err?);
        && (rec.Err? ==>
              && r == Err(rec.msg)
              && backends.sent == old(backends.sent) + listed
              && metrics.trace == old(metrics.trace) + [listEvent]
              && metrics.Snap() == Record(old(metrics.Snap()), listEvent))
        && (rec.Ok? ==>
              var m := Attempted(rec.value, backends.product);
              && r == Recommendations(rec.value, backends.product)
              && backends.sent == old(backends.sent) + listed + LookupCalls(rec.value[..m])
              && metrics.trace == old(metrics.trace) + [listEvent] + LookupEvents(rec.value[..m], backends.product)
              && metrics.Snap() ==
                   RecordAll(Record(old(metrics.Snap()), listEvent), LookupEvents(rec.value[..m], backends.product)))
    {
      var resp := backends.Recommend(userId, productIds);
      metrics.RecordGRPCRequest("RecommendationService", "ListRecommendations", GrpcStatus(resp.Err?));
      if resp.Err? {
        return Err(resp.msg);
      }
      r := LookUpAll(resp.value);
    }

    /** The backends and the registry hold, beyond `sent0`, `trace0` and `snap0`,
        exactly the calls and events of looking up `ids`. */
    ghost predicate Logged(ids: seq<string>, sent0: seq<Call>, trace0: seq<Event>, snap0: Snapshot)
      reads this, backends, metrics
    {
      && backends.sent == sent0 + LookupCalls(ids)
      && metrics.trace == trace0 + LookupEvents(ids, backends.product)
      && metrics.Snap() == RecordAll(snap0, LookupEvents(ids, backends.product))
    }

    /**
     * One iteration of getRecommendations' loop (rpc.go:171-175): look up
     * `ids[i]` and store it at `out[i]` unless the lookup failed. The call
     * and its metric event extend the logs of the first `i` lookups, which
     * started from `sent0`, `trace0` and `snap0`, to those of the first `i + 1`.
     */
    method FetchInto(ids: seq<string>, i: nat, out: array<Product>,
                     ghost sent0: seq<Call>, ghost trace0: seq<Event>, ghost snap0: Snapshot)
      returns (failure: Option<string>)
      requires i < |ids| == out.Length
      requires Logged(ids[..i], sent0, trace0, snap0)
      modifies backends, metrics, out
      ensures failure.Some? <==> backends.product(ids[i]).Err?
      ensures failure.Some? ==> failure.value == backends.product(ids[i]).msg
      ensures failure.None? ==> out[..] == old(out[..])[i := backends.product(ids[i]).value]
      ensures failure.Some? ==> out[..] == old(out[..])
      ensures Logged(ids[..i + 1], sent0, trace0, snap0)
    {
      var p := LookupNext(ids, i, sent0, trace0, snap0);
      if p.Err? {
        return Some(p.msg);
      }
      out[i] := p.value;
      failure := None;
    }

    /** getProduct on `ids[i]` (rpc.go:171), extending the logs of the first `i`
        lookups to those of the first `i + 1`. */
    method LookupNext(ids: seq<string>, i: nat, ghost sent0: seq<Call>, ghost trace0: seq<Event>, ghost snap0: Snapshot)
      returns (p: Result<Product>)
      requires i < |ids|
      requires Logged(ids[..i], sent0, trace0, snap0)
      modifies backends, metrics
      ensures p == backends.product(ids[i])
      ensures Logged(ids[..i + 1], sent0, trace0, snap0)
    {
      LookupStep(ids, i, backends.product);
      LookupRecorded(snap0, ids, i, backends.product);
      p := GetProduct(ids[i]);
    }

    /** The loop of getRecommendations (rpc.go:169-180): `out[i]` is the product of
        `ids[i]`; the first failing lookup ends it. */
    method LookUpAll(ids: seq<string>) returns (r: Result<seq<Product>>)
      modifies backends, metrics
      ensures var m := Attempted(ids, backends.product);
        && r == Recommendations(ids, backends.product)
        && backends.sent == old(backends.sent) + LookupCalls(ids[..m])
        && metrics.trace == old(metrics.trace) + LookupEvents(ids[..m], backends.product)
        && metrics.Snap() == RecordAll(old(metrics.Snap()), LookupEvents(ids[..m], backends.product))
    {
      ghost var sent0, trace0, snap0 := backends.sent, metrics.trace, metrics.Snap();
      ghost var lookup := backends.product;
      var out := new Product[|ids|];
      assert ids[..0] == [];
      for i := 0 to |ids|
        invariant forall j :: 0 <= j < i ==> lookup(ids[j]) == Ok(out[j])
        invariant Logged(ids[..i], sent0, trace0, snap0)
      {
        var failure := FetchInto(ids, i, out, sent0, trace0, snap0);
        if failure.Some? {
          LookupsStopAt(ids, lookup, i);
          return Err(LookupError(ids[i], failure.value));
        }
      }
      assert ids[..|ids|] == ids;
      LookupsComplete(ids, lookup, out[..]);
      var n := if |ids| > MaxRecommendations then MaxRecommendations else |ids|;
      r := Ok(out[..n]);
    }

    /** getAd (rpc.go:183-199): the ads for the context keys; an error is wrapped with
        "failed to get ads", and the gRPC event is recorded either way. */
    method GetAd(contextKeys: seq<string>) returns (r: Result<seq<Ad>>)
      modifies backends, metrics
      ensures backends.sent == old(backends.sent) + [GetAds(contextKeys)]
      ensures r.Ok? <==> backends.ads(contextKeys).Ok?
      ensures r == WrapErr(backends.ads(contextKeys), "failed to get ads")
      ensures metrics.trace == old(metrics.trace) + [GrpcEvent("AdService", "GetAds", r.Err?)]
      ensures metrics.Snap() == Record(old(metrics.Snap()), GrpcEvent("AdService", "GetAds", r.Err?))
    {
      var resp := backends.Ads(contextKeys);
      metrics.RecordGRPCRequest("AdService", "GetAds", GrpcStatus(resp.Err?));
      r := WrapErr(resp, "failed to get ads");
    }
  }

  /** The lookups stop at the first failure, with that failure's error. */
  lemma LookupsStopAt(ids: seq<string>, lookup: string -> Result<Product>, i: nat)
    requires i < |ids| && lookup(ids[i]).Err?
    requires forall j :: 0 <= j < i ==> lookup(ids[j]).Ok?
    ensures Attempted(ids, lookup) == i + 1
    ensures Recommendations(ids, lookup) == Err(LookupError(ids[i], lookup(ids[i]).msg))
  {
    FirstFailureAt(ids, lookup, i);
  }

  /** When every lookup succeeds, the result is the first four products found. */
  lemma LookupsComplete(ids: seq<string>, lookup: string -> Result<Product>, found: seq<Product>)
    requires |found| == |ids|
    requires forall j :: 0 <= j < |ids| ==> lookup(ids[j]) == Ok(found[j])
    ensures Attempted(ids, lookup) == |ids|
    ensures Recommendations(ids, lookup) ==
      Ok(found[..if |ids| > MaxRecommendations then MaxRecommendations else |ids|])
  {
    var n := if |ids| > MaxRecommendations then MaxRecommendations else |ids|;
    assert found[..n] == seq(n, i requires 0 <= i < n => lookup(ids[i]).value);
  }

  /** One more lookup extends the call and event logs by one entry each. */
  lemma LookupStep(ids: seq<string>, i: nat, lookup: string -> Result<Product>)
    requires i < |ids|
    ensures LookupCalls(ids[..i + 1]) == LookupCalls(ids[..i]) + [Call.GetProduct(ids[i])]
    ensures LookupEvents(ids[..i + 1], lookup) ==
      LookupEvents(ids[..i], lookup) + [GrpcEvent("ProductCatalogService", "GetProduct", lookup(ids[i]).Err?)]
  {
  }

  /** Recording the events of one more lookup is recording that lookup's event last. */
  lemma LookupRecorded(s: Snapshot, ids: seq<string>, i: nat, lookup: string -> Result<Product>)
    requires i < |ids|
    ensures RecordAll(s, LookupEvents(ids[..i + 1], lookup)) ==
      Record(RecordAll(s, LookupEvents(ids[..i], lookup)),
             GrpcEvent("ProductCatalogService", "GetProduct", lookup(ids[i]).Err?))
  {
    LookupStep(ids, i, lookup);
    RecordAllAppend(s, LookupEvents(ids[..i], lookup), GrpcEvent("ProductCatalogService", "GetProduct", lookup(ids[i]).Err?));
  }

  /** If every lookup before `i` succeeds and the lookup at `i` fails, `i` is the first failure. */
  lemma {:induction false} FirstFailureAt(ids: seq<string>, lookup: string -> Result<Product>, i: nat)
    requires i < |ids| && lookup(ids[i]).Err?
    requires forall j :: 0 <= j < i ==> lookup(ids[j]).Ok?
    ensures FirstFailure(ids, lookup) == i
    decreases i
  {
    if i > 0 {
      FirstFailureAt(ids[1..], lookup, i - 1);
    }
  }
}
