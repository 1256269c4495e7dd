/** The host router of pkg/proxy/router.go: exact host names and `*`-prefixed
    wildcard patterns, each kept in its own map. The route type is a parameter,
    since the router never looks inside a route. */
module HostRouter {
  import opened Wrappers
  import opened Strings

  /** The normalised form of a host: lower-cased and cut before its first `:`,
      which drops a port. */
  function PrepareHost(host: string): (r: string)
    ensures ':' !in r
    ensures HasPrefix(ToLower(host), r)
    ensures |r| < |host| ==> host[|r|] == ':'
  {
    var lower := ToLower(host);
    var idx := IndexOf(lower, ':');
    if idx != -1 then lower[..idx] else lower
  }

  /** A prepared host has no upper-case letter. */
  lemma PreparedIsLower(host: string)
    ensures ToLower(PrepareHost(host)) == PrepareHost(host)
  {
  }

  /** Preparing a prepared host changes nothing. */
  lemma {:induction false} PrepareHostIdempotent(host: string)
    ensures PrepareHost(PrepareHost(host)) == PrepareHost(host)
  {
    var p := PrepareHost(host);
    PreparedIsLower(host);
    assert IndexOf(ToLower(p), ':') == -1;
  }

  /** A host without a colon is only lower-cased. */
  lemma PrepareHostNoColon(a: string)
    requires ':' !in a
    ensures PrepareHost(a) == ToLower(a)
  {
    assert forall i :: 0 <= i < |a| ==> ToLower(a)[i] != ':';
  }

  /** The port after the first colon is dropped. */
  lemma PrepareHostCutsPort(a: string, port: string)
    requires ':' !in a
    ensures PrepareHost(a + ":" + port) == ToLower(a)
  {
    var h := a + ":" + port;
    var lower := ToLower(h);
    var idx := IndexOf(lower, ':');
    assert lower[|a|] == ':';
    assert idx == |a|;
    assert lower[..|a|] == ToLower(a);
  }

  predicate IsWildcard(host: string) {
    HasPrefix(host, "*")
  }

  /** Whether a host matches a pattern: only wildcard patterns match, and
      `*S` matches every host ending in `S`. */
  function MatchWildcard(host: string, pattern: string): (b: bool)
    ensures b ==> IsWildcard(pattern)
  {
    if !IsWildcard(pattern) then false
    else HasSuffix(host, pattern[1..])
  }

  /** `*S` matches a host exactly when the host ends with `S`. */
  lemma MatchWildcardIff(host: string, suffix: string)
    ensures MatchWildcard(host, "*" + suffix) <==> HasSuffix(host, suffix)
  {
    assert ("*" + suffix)[1..] == suffix;
  }

  /** `*.example.com` covers subdomains at any depth, but not the apex. */
  lemma WildcardExamples()
    ensures MatchWildcard("api.example.com", "*.example.com")
    ensures MatchWildcard("a.b.example.com", "*.example.com")
    ensures !MatchWildcard("example.com", "*.example.com")
  {
    MatchWildcardIff("api.example.com", ".example.com");
    MatchWildcardIff("a.b.example.com", ".example.com");
    MatchWildcardIff("example.com", ".example.com");
    assert "api.example.com"[3..] == ".example.com";
    assert "a.b.example.com"[3..] == ".example.com";
  }

  class Router<R> {
    var exact: map<string, R>
    var wildcards: map<string, R>

    /** Keys are prepared hosts; wildcard keys are exactly those in `wildcards`. */
    ghost predicate Valid()
      reads this
    {
      (forall k :: k in exact ==> !IsWildcard(k) && PrepareHost(k) == k)
      && (forall k :: k in wildcards ==> IsWildcard(k) && PrepareHost(k) == k)
    }

    constructor()
      ensures exact == map[] && wildcards == map[]
      ensures Valid()
    {
      exact := map[];
      wildcards := map[];
    }

    /** Stores the route under the prepared host, replacing an earlier one. */
    method Add(host: string, route: R)
      requires Valid()
      modifies this
      ensures Valid()
      ensures var p := PrepareHost(host);
        if IsWildcard(p) then wildcards == old(wildcards)[p := route] && exact == old(exact)
        else exact == old(exact)[p := route] && wildcards == old(wildcards)
    {
      var prepared := PrepareHost(host);
      PrepareHostIdempotent(host);
      if IsWildcard(prepared) {
        wildcards := wildcards[prepared := route];
      } else {
        exact := exact[prepared := route];
      }
    }

    /** Deletes the prepared host from the map its form selects. */
    method Remove(host: string)
      requires Valid()
      modifies this
      ensures Valid()
      ensures var p := PrepareHost(host);
        if IsWildcard(p) then wildcards == old(wildcards) - {p} && exact == old(exact)
        else exact == old(exact) - {p} && wildcards == old(wildcards)
    {
      var prepared := PrepareHost(host);
      if IsWildcard(prepared) {
        wildcards := wildcards - {prepared};
      } else {
        exact := exact - {prepared};
      }
    }

    /** An exact key wins; otherwise any wildcard that matches, in no particular
        order; `None` only when neither exists. */
    method Lookup(host: string) returns (r: Option<R>)
      ensures var p := PrepareHost(host);
        && (p in exact ==> r == Some(exact[p]))
        && (p !in exact ==>
              (r.None? <==> forall k :: k in wildcards ==> !MatchWildcard(p, k)))
        && (p !in exact && r.Some? ==>
              exists k :: k in wildcards && MatchWildcard(p, k) && wildcards[k] == r.value)
    {
      var prepared := PrepareHost(host);
      if prepared in exact {
        return Some(exact[prepared]);
      }
      var remaining := wildcards.Keys;
      while remaining != {}
        invariant remaining <= wildcards.Keys
        invariant forall k :: k in wildcards && k !in remaining ==> !MatchWildcard(prepared, k)
        decreases remaining
      {
        var pattern :| pattern in remaining;
        if MatchWildcard(prepared, pattern) {
          return Some(wildcards[pattern]);
        }
        remaining := remaining - {pattern};
      }
      return None;
    }
  }

  /** A route added under a host in lower case is found for the same host
      in any letter case and with any port, e.g. `Example.com:8080` finds a
      route added as `example.com`. */
  method LookupWithPort<R>(host: string, port: string, route: R) returns (found: Option<R>)
    requires ':' !in host && !IsWildcard(host)
    ensures found == Some(route)
  {
    var router := new Router<R>();
    var key := ToLower(host);
    router.Add(key, route);
    PrepareHostNoColon(key);
    ToLowerIdempotent(host);
    PrepareHostCutsPort(host, port);
    found := router.Lookup(host + ":" + port);
  }
}
