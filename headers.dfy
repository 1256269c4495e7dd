/** The header-rewrite middleware of pkg/middleware/headers.go: values to
    add, values to set and names to remove, applied in that order to the
    request header and to the response header before the next handler runs. */
module HeaderRewrite {
  import opened Wrappers
  import opened Http

  /** `HeaderRules`: one value per key to add, one per key to set, and the
      names to delete. */
  datatype HeaderRules = HeaderRules(add: map<string, string>, put: map<string, string>, remove: seq<string>)

  /** `HeadersConfig`: the rules for each side, `None` for a nil pointer. */
  datatype HeadersConfig = HeadersConfig(request: Option<HeaderRules>, response: Option<HeaderRules>)

  /** What the three rule loops leave behind, key by key: a removed name is
      absent; a set but not removed key holds exactly its set value; a
      key only added keeps its values and gets the new one after them; any
      other key is as it was. */
  ghost predicate Rewritten(h: Header, rules: HeaderRules, r: Header) {
    && (forall k :: k in rules.remove ==> k !in r)
    && (forall k :: k !in rules.remove && k in rules.put ==> k in r && r[k] == [rules.put[k]])
    && (forall k :: k !in rules.remove && k !in rules.put && k in rules.add ==>
          k in r && r[k] == Values(h, k) + [rules.add[k]])
    && (forall k :: k !in rules.remove && k !in rules.put && k !in rules.add ==>
          (k in r <==> k in h) && Values(r, k) == Values(h, k))
  }

  /** The rewrite is a function of the header and the rules. */
  lemma RewrittenUnique(h: Header, rules: HeaderRules, r1: Header, r2: Header)
    requires Rewritten(h, rules, r1) && Rewritten(h, rules, r2)
    ensures r1 == r2
  {
    forall k | k in r1 ensures k in r2 && r1[k] == r2[k] {
      if k !in rules.remove && k !in rules.put && k !in rules.add {
        assert Values(r1, k) == Values(r2, k);
      }
    }
    forall k | k in r2 ensures k in r1 {
    }
  }

  /** Empty rules change nothing. */
  lemma EmptyRulesKeepHeader(h: Header, r: Header)
    requires Rewritten(h, HeaderRules(map[], map[], []), r)
    ensures r == h
  {
    forall k | k in r ensures k in h && r[k] == h[k] {
      assert Values(r, k) == Values(h, k);
    }
  }

  /** `for k, v := range cfg.Add { h.Add(k, v) }`, keys in no particular order. */
  method AddRules(h: Header, add: map<string, string>) returns (r: Header)
    ensures forall k :: k in add ==> k in r && r[k] == Values(h, k) + [add[k]]
    ensures forall k :: k !in add ==> (k in r <==> k in h) && Values(r, k) == Values(h, k)
  {
    r := h;
    var keys := add.Keys;
    ghost var done: set<string> := {};
    while keys != {}
      invariant keys + done == add.Keys && keys !! done
      invariant forall k :: k in done ==> k in r && r[k] == Values(h, k) + [add[k]]
      invariant forall k :: k !in done ==> (k in r <==> k in h) && Values(r, k) == Values(h, k)
      decreases keys
    {
      var k :| k in keys;
      r := Add(r, k, add[k]);
      keys := keys - {k};
      done := done + {k};
    }
  }

  /** `for k, v := range cfg.Set { h.Set(k, v) }`. */
  method SetRules(h: Header, put: map<string, string>) returns (r: Header)
    ensures forall k :: k in put ==> k in r && r[k] == [put[k]]
    ensures forall k :: k !in put ==> (k in r <==> k in h) && Values(r, k) == Values(h, k)
  {
    r := h;
    var keys := put.Keys;
    ghost var done: set<string> := {};
    while keys != {}
      invariant keys + done == put.Keys && keys !! done
      invariant forall k :: k in done ==> k in r && r[k] == [put[k]]
      invariant forall k :: k !in done ==> (k in r <==> k in h) && Values(r, k) == Values(h, k)
      decreases keys
    {
      var k :| k in keys;
      r := Set(r, k, put[k]);
      keys := keys - {k};
      done := done + {k};
    }
  }

  /** `for _, v := range cfg.Remove { h.Del(v) }`. */
  method RemoveRules(h: Header, remove: seq<string>) returns (r: Header)
    ensures forall k :: k in remove ==> k !in r
    ensures forall k :: k !in remove ==> (k in r <==> k in h) && Values(r, k) == Values(h, k)
  {
    r := h;
    for i := 0 to |remove|
      invariant forall k :: k in remove[..i] ==> k !in r
      invariant forall k :: k !in remove[..i] ==> (k in r <==> k in h) && Values(r, k) == Values(h, k)
    {
      assert remove[..i + 1] == remove[..i] + [remove[i]];
      r := Del(r, remove[i]);
    }
    assert remove[..|remove|] == remove;
  }

  /** `applyHeaders`: the add loop, then the set loop, then the remove loop. */
  method ApplyHeaders(h: Header, rules: HeaderRules) returns (r: Header)
    ensures Rewritten(h, rules, r)
  {
    var added := AddRules(h, rules.add);
    var replaced := SetRules(added, rules.put);
    r := RemoveRules(replaced, rules.remove);
  }

  /** The handler: each side with rules is rewritten, one without is left
      alone, and then the next handler runs once. */
  method HeadersHandler(cfg: HeadersConfig, req: Request, resp: Response) returns (s: Step)
    ensures s.Next? && s.req == req.(header := s.req.header) && s.resp == resp.(header := s.resp.header)
    ensures cfg.request.None? ==> s.req == req
    ensures cfg.request.Some? ==> Rewritten(req.header, cfg.request.value, s.req.header)
    ensures cfg.response.None? ==> s.resp == resp
    ensures cfg.response.Some? ==> Rewritten(resp.header, cfg.response.value, s.resp.header)
  {
    var r := req;
    var w := resp;
    if cfg.request.Some? {
      var h := ApplyHeaders(r.header, cfg.request.value);
      r := r.(header := h);
    }
    if cfg.response.Some? {
      var h := ApplyHeaders(w.header, cfg.response.value);
      w := w.(header := h);
    }
    s := Next(r, w);
  }
}
