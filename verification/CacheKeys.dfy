/** The cache keys of internal/keycloak: fields joined by NUL. */
module CacheKeys {

  /** internal/authz/authz.go: one authorization question. */
  datatype Request = Request(repository: string, action: string, namespace: string,
                             deployment: string, ref: string)

  const NUL: string := "\U{0}"

  function ResourceName(req: Request): string {
    req.namespace + "/" + req.deployment
  }

  function DecisionKey(req: Request): string {
    Join(Fields(req))
  }

  function Fields(req: Request): seq<string> {
    [req.repository, req.action, req.namespace, req.deployment, req.ref]
  }

  function RefsKey(resource: string, action: string): string {
    Join([resource, action])
  }

  /** The fields with one NUL between neighbours. */
  function Join(fields: seq<string>): string
    requires fields != []
  {
    if |fields| == 1 then fields[0] else fields[0] + NUL + Join(fields[1..])
  }

  predicate NulFree(s: string) {
    NUL[0] !in s
  }

  predicate AllNulFree(fields: seq<string>) {
    forall i :: 0 <= i < |fields| ==> NulFree(fields[i])
  }

  predicate NulFreeRequest(req: Request) {
    && NulFree(req.repository) && NulFree(req.action) && NulFree(req.namespace)
    && NulFree(req.deployment) && NulFree(req.ref)
  }

  function Count(s: string): nat {
    if s == "" then 0 else (if s[0] == NUL[0] then 1 else 0) + Count(s[1..])
  }

  lemma {:induction false} CountConcat(a: string, b: string)
    ensures Count(a + b) == Count(a) + Count(b)
  {
    if a == "" {
      assert a + b == b;
    } else {
      assert (a + b)[1..] == a[1..] + b;
      CountConcat(a[1..], b);
    }
  }

  lemma {:induction false} CountFree(s: string)
    ensures Count(s) == 0 <==> NulFree(s)
  {
    if s != "" {
      CountFree(s[1..]);
      assert s == [s[0]] + s[1..];
    }
  }

  /** A join has a NUL for each gap, and more exactly when some field has one. */
  lemma {:induction false} CountJoin(fields: seq<string>)
    requires fields != []
    ensures Count(Join(fields)) >= |fields| - 1
    ensures Count(Join(fields)) == |fields| - 1 <==> AllNulFree(fields)
  {
    CountFree(fields[0]);
    if |fields| > 1 {
      var rest := fields[1..];
      CountJoin(rest);
      CountConcat(fields[0] + NUL, Join(rest));
      CountConcat(fields[0], NUL);
      assert Count(NUL) == 1;
      assert AllNulFree(fields) <==> NulFree(fields[0]) && AllNulFree(rest) by {
        assert forall i :: 0 <= i < |rest| ==> rest[i] == fields[i + 1];
      }
    }
  }

  /** Two NUL-free heads before equal separators are the same head. */
  lemma HeadsAgree(a: string, b: string, x: string, y: string)
    requires NulFree(a) && NulFree(b) && a + NUL + x == b + NUL + y
    ensures a == b && x == y
  {
    var s := a + NUL + x;
    assert s[|a|] == NUL[0] && s[|b|] == NUL[0];
    forall i | 0 <= i < |a|
      ensures s[i] != NUL[0]
    {
      assert s[i] == a[i];
    }
    forall i | 0 <= i < |b|
      ensures s[i] != NUL[0]
    {
      assert s[i] == b[i];
    }
    assert a == s[..|a|] && x == s[|a| + 1..];
    assert b == s[..|b|] && y == s[|b| + 1..];
  }

  lemma {:induction false} JoinInjective(f: seq<string>, g: seq<string>)
    requires f != [] && |f| == |g| && AllNulFree(f) && Join(f) == Join(g)
    ensures f == g
  {
    CountJoin(f);
    CountJoin(g);
    if |f| > 1 {
      HeadsAgree(f[0], g[0], Join(f[1..]), Join(g[1..]));
      assert AllNulFree(f[1..]) by { assert forall i :: 0 <= i < |f| - 1 ==> f[1..][i] == f[i + 1]; }
      JoinInjective(f[1..], g[1..]);
      assert f == [f[0]] + f[1..] && g == [g[0]] + g[1..];
    }
  }

  /** The first NUL of a string that has one, as a split. */
  lemma SplitAt(s: string) returns (u: string, v: string)
    requires !NulFree(s)
    ensures s == u + NUL + v
  {
    var i :| 0 <= i < |s| && s[i] == NUL[0];
    u, v := s[..i], s[i + 1..];
  }

  lemma ShiftNul(u: string, v: string, next: string, rest: string)
    ensures u + NUL + ((v + NUL + next) + NUL + rest) == (u + NUL + v) + NUL + (next + NUL + rest)
    ensures u + NUL + (v + NUL + rest) == (u + NUL + v) + NUL + rest
  {
  }

  /** Another request with the same key, when some field holds a NUL: move that
      NUL's tail into the neighbouring field. */
  lemma OtherRequest(req: Request) returns (q: Request)
    requires !NulFreeRequest(req)
    ensures q != req && DecisionKey(q) == DecisionKey(req)
  {
    hide Join, DecisionKey;
    if !NulFree(req.repository) {
      var u, v := SplitAt(req.repository);
      q := req.(repository := u, action := v + NUL + req.action);
      ShiftNul(u, v, req.action, req.namespace + NUL + (req.deployment + NUL + req.ref));
      assert |u| < |req.repository|;
    } else if !NulFree(req.action) {
      var u, v := SplitAt(req.action);
      q := req.(action := u, namespace := v + NUL + req.namespace);
      ShiftNul(u, v, req.namespace, req.deployment + NUL + req.ref);
      assert |u| < |req.action|;
    } else if !NulFree(req.namespace) {
      var u, v := SplitAt(req.namespace);
      q := req.(namespace := u, deployment := v + NUL + req.deployment);
      ShiftNul(u, v, req.deployment, req.ref);
      assert |u| < |req.namespace|;
    } else if !NulFree(req.deployment) {
      var u, v := SplitAt(req.deployment);
      q := req.(deployment := u, ref := v + NUL + req.ref);
      ShiftNul(u, v, "", req.ref);
      assert |u| < |req.deployment|;
    } else {
      var u, v := SplitAt(req.ref);
      q := req.(deployment := req.deployment + NUL + u, ref := v);
      ShiftNul(req.deployment, u, "", v);
      assert |v| < |req.ref|;
    }
    KeyShape(q);
    KeyShape(req);
  }

  lemma Join2(head: string, rest: seq<string>)
    requires rest != []
    ensures Join([head] + rest) == head + NUL + Join(rest)
  {
    assert ([head] + rest)[1..] == rest;
  }

  lemma KeyShape(req: Request)
    ensures DecisionKey(req) == req.repository + NUL + (req.action + NUL + (req.namespace + NUL +
                                  (req.deployment + NUL + req.ref)))
  {
    assert Fields(req) == [req.repository] + [req.action, req.namespace, req.deployment, req.ref];
    assert Fields(req)[1..] == [req.action] + [req.namespace, req.deployment, req.ref];
    assert Fields(req)[2..] == [req.namespace] + [req.deployment, req.ref];
    assert Fields(req)[3..] == [req.deployment] + [req.ref];
    Join2(req.repository, [req.action, req.namespace, req.deployment, req.ref]);
    Join2(req.action, [req.namespace, req.deployment, req.ref]);
    Join2(req.namespace, [req.deployment, req.ref]);
    Join2(req.deployment, [req.ref]);
  }

  /** Which requests own their decision key: exactly the NUL-free ones. Nothing
      upstream rejects a NUL in the JSON body's namespace or deployment, so the
      cached decision of one such request can be served to another. */
  lemma DecisionKeyOwned(req: Request)
    ensures NulFreeRequest(req) <==> forall q :: DecisionKey(q) == DecisionKey(req) ==> q == req
  {
    if NulFreeRequest(req) {
      assert AllNulFree(Fields(req));
      forall q | DecisionKey(q) == DecisionKey(req)
        ensures q == req
      {
        JoinInjective(Fields(req), Fields(q));
        assert Fields(req)[0] == Fields(q)[0] && Fields(req)[1] == Fields(q)[1] && Fields(req)[2] == Fields(q)[2];
        assert Fields(req)[3] == Fields(q)[3] && Fields(req)[4] == Fields(q)[4];
      }
    } else {
      var q := OtherRequest(req);
    }
  }

  lemma RefsKeyShape(resource: string, action: string)
    ensures RefsKey(resource, action) == resource + NUL + action
  {
    Join2(resource, [action]);
    assert [resource, action] == [resource] + [action];
  }

  /** The same for the ref cache's key. */
  lemma RefsKeyOwned(resource: string, action: string)
    ensures NulFree(resource) && NulFree(action) <==>
            forall r, a :: RefsKey(r, a) == RefsKey(resource, action) ==> r == resource && a == action
  {
    if NulFree(resource) && NulFree(action) {
      forall r, a | RefsKey(r, a) == RefsKey(resource, action)
        ensures r == resource && a == action
      {
        JoinInjective([resource, action], [r, a]);
        assert [resource, action][0] == [r, a][0] && [resource, action][1] == [r, a][1];
      }
    } else if !NulFree(resource) {
      var u, v := SplitAt(resource);
      RefsKeyShape(resource, action);
      RefsKeyShape(u, v + NUL + action);
      assert RefsKey(u, v + NUL + action) == RefsKey(resource, action);
      assert |u| < |resource|;
    } else {
      var u, v := SplitAt(action);
      RefsKeyShape(resource, action);
      RefsKeyShape(resource + NUL + u, v);
      assert RefsKey(resource + NUL + u, v) == RefsKey(resource, action);
      assert |v| < |action|;
    }
  }

  lemma ResourceNulFree(req: Request)
    requires NulFreeRequest(req)
    ensures NulFree(ResourceName(req))
  {
  }
}
