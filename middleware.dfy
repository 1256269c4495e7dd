/** Middleware identities and the wrapping of a handler by a list of
    middleware (pkg/middleware/middleware.go and the `applyMiddlewares` loops of
    the proxy packages). A middleware's handler function is not interpreted: an
    instance is its type tag plus an opaque identity, and a wrapped handler is
    the chain of instances around the base handler. */
module Middlewares {
  import opened Wrappers

  /** The nine middleware kinds. */
  datatype Type =
    | RateLimit | BasicAuth | Cors | Headers | Compress
    | RequestId | SecurityHeaders | MaxRequestBody | Recovery

  /** The string value of each kind, as configuration files spell it. */
  function Name(t: Type): string {
    match t
    case RateLimit => "rate_limit"
    case BasicAuth => "basic_auth"
    case Cors => "cors"
    case Headers => "headers"
    case Compress => "compress"
    case RequestId => "request_id"
    case SecurityHeaders => "security_headers"
    case MaxRequestBody => "max_request_body"
    case Recovery => "recovery"
  }

  /** The kind a configuration string names, if any. */
  function Parse(s: string): (r: Option<Type>)
    ensures r.Some? ==> Name(r.value) == s
  {
    if s == "rate_limit" then Some(RateLimit)
    else if s == "basic_auth" then Some(BasicAuth)
    else if s == "cors" then Some(Cors)
    else if s == "headers" then Some(Headers)
    else if s == "compress" then Some(Compress)
    else if s == "request_id" then Some(RequestId)
    else if s == "security_headers" then Some(SecurityHeaders)
    else if s == "max_request_body" then Some(MaxRequestBody)
    else if s == "recovery" then Some(Recovery)
    else None
  }

  /** Every kind's name parses back to that kind, so names are distinct. */
  lemma ParseName(t: Type)
    ensures Parse(Name(t)) == Some(t)
  {
  }

  /** A configured middleware instance: its kind and the identity of its handler. */
  datatype Middleware = Middleware(tag: Type, id: int)

  /** The kinds occurring in a list of instances. */
  function Tags(s: seq<Middleware>): set<Type> {
    set m | m in s :: m.tag
  }

  predicate DistinctTags(s: seq<Middleware>) {
    forall i, j :: 0 <= i < j < |s| ==> s[i].tag != s[j].tag
  }

  /** Two lists without repeated kinds and without a common kind concatenate
      to a list without repeated kinds. */
  lemma DistinctConcat(a: seq<Middleware>, b: seq<Middleware>)
    requires DistinctTags(a) && DistinctTags(b) && Tags(a) !! Tags(b)
    ensures DistinctTags(a + b)
  {
    var l := a + b;
    forall i, j | 0 <= i < j < |l| ensures l[i].tag != l[j].tag {
      if j < |a| {
        assert l[i] == a[i] && l[j] == a[j];
      } else if i >= |a| {
        assert l[i] == b[i - |a|] && l[j] == b[j - |a|];
      } else {
        assert l[i] == a[i] && l[j] == b[j - |a|];
        assert a[i].tag in Tags(a) && b[j - |a|].tag in Tags(b);
      }
    }
  }

  /** A handler: the base handler, or a middleware wrapped around a handler. */
  datatype Chain<M> = Base | Wrap(outer: M, inner: Chain<M>)

  /** The middleware of a handler from the outermost inwards. */
  function Layers<M>(c: Chain<M>): seq<M> {
    match c
    case Base => []
    case Wrap(m, inner) => [m] + Layers(inner)
  }

  /** The handler made of these middleware around the base handler, the first
      one outermost. */
  function ChainOf<M>(mws: seq<M>): (c: Chain<M>)
    ensures Layers(c) == mws
    decreases |mws|
  {
    if |mws| == 0 then Base
    else
      assert mws == [mws[0]] + mws[1..];
      Wrap(mws[0], ChainOf(mws[1..]))
  }

  /** A handler is determined by its layers. */
  lemma {:induction false} LayersInjective<M>(a: Chain<M>, b: Chain<M>)
    requires Layers(a) == Layers(b)
    ensures a == b
  {
    match a
    case Base =>
    case Wrap(m, inner) =>
      assert Layers(b) == [m] + Layers(inner);
      assert Layers<M>(Base) == [];
      assert b.Wrap?;
      assert Layers(b) == [b.outer] + Layers(b.inner);
      assert Layers(b.inner) == Layers(b)[1..] == Layers(inner);
      LayersInjective(inner, b.inner);
  }

  /** Wrapping from the last element to the first: element 0 ends up outermost,
      so the list order is the order in which the middleware run. */
  method ApplyMiddlewares<M>(h: Chain<M>, mws: seq<M>) returns (r: Chain<M>)
    ensures Layers(r) == mws + Layers(h)
  {
    r := h;
    for i := |mws| downto 0
      invariant Layers(r) == mws[i..] + Layers(h)
    {
      PushFront(mws, i, Layers(h));
      r := Wrap(mws[i], r);
    }
    assert mws[0..] == mws;
  }

  lemma PushFront<T>(s: seq<T>, i: int, tail: seq<T>)
    requires 0 <= i < |s|
    ensures [s[i]] + (s[i + 1..] + tail) == s[i..] + tail
  {
    assert s[i..] == [s[i]] + s[i + 1..];
  }
}
