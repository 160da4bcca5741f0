/** What Keycloak answers and how the client reads it: the pure parts of
    internal/keycloak. */
module Keycloak {
  import opened Outcomes
  import opened CacheKeys
  import opened RefPattern

  datatype User = User(id: string, username: string)

  datatype Resource = Resource(name: string, attributes: map<string, seq<string>>)

  /** Lower case on ASCII letters. */
  function FoldChar(c: char): char {
    if 'A' <= c <= 'Z' then (c as int + 32) as char else c
  }

  predicate EqualFold(a: string, b: string) {
    |a| == |b| && forall i :: 0 <= i < |a| ==> FoldChar(a[i]) == FoldChar(b[i])
  }

  predicate IsUser(u: User, username: string) {
    u.id != "" && EqualFold(u.username, username)
  }

  /** The first returned user that really carries the name. */
  function PickUser(users: seq<User>, username: string): (r: Option<string>)
    ensures r.None? <==> forall i :: 0 <= i < |users| ==> !IsUser(users[i], username)
  {
    if users == [] then None
    else if IsUser(users[0], username) then Some(users[0].id)
    else
      assert forall i :: 0 < i < |users| ==> users[i] == users[1..][i - 1];
      PickUser(users[1..], username)
  }

  /** Two names are one exactly if they have one length and every two characters
      in one place are the same, or the two cases of one ASCII letter. */
  lemma EqualFoldMeans(a: string, b: string)
    ensures EqualFold(a, b) <==>
            && |a| == |b|
            && forall k :: 0 <= k < |a| ==> || a[k] == b[k]
                                            || ('A' <= a[k] <= 'Z' && b[k] as int == a[k] as int + 32)
                                            || ('A' <= b[k] <= 'Z' && a[k] as int == b[k] as int + 32)
  {
  }

  /** The user taken is the first listed with an id whose name is the one asked
      for, but for the case of ASCII letters; none is taken exactly if there is
      none. A user whose name merely contains the one asked for, or only has its
      length, is never taken. */
  lemma {:induction false} PickUserMeans(users: seq<User>, username: string)
    ensures var r := PickUser(users, username);
            r.Some? ==>
              exists i :: && 0 <= i < |users| && users[i].id == r.value != "" && |users[i].username| == |username|
                          && (forall k :: 0 <= k < |username| ==>
                                || users[i].username[k] == username[k]
                                || ('A' <= username[k] <= 'Z'
                                    && users[i].username[k] as int == username[k] as int + 32)
                                || ('A' <= users[i].username[k] <= 'Z'
                                    && username[k] as int == users[i].username[k] as int + 32))
                          && forall j :: 0 <= j < i ==> !IsUser(users[j], username)
    ensures PickUser(users, username).None? <==>
            forall i :: 0 <= i < |users| && users[i].id != "" ==>
              || |users[i].username| != |username|
              || exists k :: && 0 <= k < |username| && users[i].username[k] != username[k]
                             && !('A' <= username[k] <= 'Z'
                                  && users[i].username[k] as int == username[k] as int + 32)
                             && !('A' <= users[i].username[k] <= 'Z'
                                  && username[k] as int == users[i].username[k] as int + 32)
  {
    forall i | 0 <= i < |users| {
      EqualFoldMeans(users[i].username, username);
    }
    hide EqualFold;
    if PickUser(users, username).Some? {
      var i := FirstUser(users, username);
    }
  }

  lemma {:induction false} FirstUser(users: seq<User>, username: string) returns (i: nat)
    requires PickUser(users, username).Some?
    ensures i < |users| && IsUser(users[i], username) && users[i].id == PickUser(users, username).value
    ensures forall j :: 0 <= j < i ==> !IsUser(users[j], username)
  {
    hide IsUser;
    if IsUser(users[0], username) {
      i := 0;
      assert PickUser(users, username) == Some(users[0].id);
    } else {
      i := FirstUser(users[1..], username);
      i := i + 1;
      assert forall j :: 0 < j < i ==> users[j] == users[1..][j - 1];
    }
  }

  function PickResource(resources: seq<Resource>, name: string): Option<Resource> {
    if resources == [] then None
    else if resources[0].name == name then Some(resources[0])
    else PickResource(resources[1..], name)
  }

  /** The ref constraints of one action: the specific attribute, else the bare
      one, else none. */
  function RefsOf(attributes: map<string, seq<string>>, action: string): seq<string> {
    if "allowed_refs." + action in attributes then attributes["allowed_refs." + action]
    else if "allowed_refs" in attributes then attributes["allowed_refs"]
    else []
  }

  /** A resource that is not found has no constraints. */
  function RefsFor(resources: seq<Resource>, name: string, action: string): seq<string> {
    match PickResource(resources, name)
    case None => []
    case Some(r) => RefsOf(r.attributes, action)
  }

  /** The constraints are those of the first resource with the very name asked
      for: the attribute of the action if it has it, even an empty one, else the
      bare attribute, else none; and none if no resource has the name. */
  lemma {:induction false} RefsForMeans(resources: seq<Resource>, name: string, action: string)
    ensures forall i :: && 0 <= i < |resources| && resources[i].name == name
                        && (forall j :: 0 <= j < i ==> resources[j].name != name) ==>
              RefsFor(resources, name, action) ==
              if "allowed_refs." + action in resources[i].attributes
              then resources[i].attributes["allowed_refs." + action]
              else if "allowed_refs" in resources[i].attributes then resources[i].attributes["allowed_refs"]
              else []
    ensures (forall i :: 0 <= i < |resources| ==> resources[i].name != name) ==>
              RefsFor(resources, name, action) == []
  {
    if resources != [] && resources[0].name != name {
      RefsForMeans(resources[1..], name, action);
      assert forall i :: 0 < i < |resources| ==> resources[i] == resources[1..][i - 1];
      assert RefsFor(resources, name, action) == RefsFor(resources[1..], name, action);
      forall i | && 0 <= i < |resources| && resources[i].name == name
                 && (forall j :: 0 <= j < i ==> resources[j].name != name)
        ensures RefsFor(resources, name, action) ==
                if "allowed_refs." + action in resources[i].attributes
                then resources[i].attributes["allowed_refs." + action]
                else if "allowed_refs" in resources[i].attributes then resources[i].attributes["allowed_refs"]
                else []
      {
        var rest := resources[1..];
        assert rest[i - 1] == resources[i] && forall j :: 0 <= j < i - 1 ==> rest[j] == resources[j + 1];
      }
    }
  }

  /** Keycloak's state at one moment: what each query would be answered. */
  datatype Policy = Policy(users: string -> seq<User>,
                           grants: (string, string, string) -> bool,
                           resources: string -> seq<Resource>)

  datatype Verdict = Permitted | GrantDenied | RefDenied

  /** The decision the caches are there to speed up: evaluate from scratch
      against one policy. */
  function Reference(p: Policy, req: Request): Verdict {
    match PickUser(p.users(req.repository), req.repository)
    case None => GrantDenied
    case Some(user) =>
      if !p.grants(user, ResourceName(req), req.action) then GrantDenied
      else if MatchRef(RefsFor(p.resources(ResourceName(req)), ResourceName(req), req.action), req.ref) == Matched(true)
      then Permitted
      else RefDenied
  }

  const DECISION_TTL: int := 30 * SECOND
  const DECISION_STALE_FOR: int := 300 * SECOND
  const USER_ID_TTL: int := 600 * SECOND
  const REFS_TTL: int := DECISION_TTL

  datatype Entry<V> = Entry(value: V, storedAt: int)

  /** cache.get: the value, unless it is missing or older than maxAge. */
  function Lookup<V>(entries: map<string, Entry<V>>, key: string, now: int, maxAge: int): Option<V> {
    if key in entries && now - entries[key].storedAt <= maxAge then Some(entries[key].value) else None
  }
}
