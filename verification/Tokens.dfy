/** internal/keycloak/token.go: the access token and when it is renewed. */
module Tokens {
  import opened Outcomes
  import opened Network

  const REFRESH_SKEW: int := 30 * SECOND

  /** How long a token of this lifetime is served from the cache. */
  function Lifetime(expiresIn: int): int {
    var lifetime := expiresIn * SECOND;
    if lifetime > REFRESH_SKEW then lifetime - REFRESH_SKEW else lifetime
  }

  class TokenSource {
    const net: Network
    var token: string
    var expiresAt: int
    /** When the cached token's fetch completed, and the lifetime it came with. */
    ghost var fetchedAt: int
    ghost var expiresIn: int

    ghost predicate Valid()
      reads this, net
    {
      token != "" ==> expiresAt == fetchedAt + Lifetime(expiresIn) && fetchedAt <= net.clock
    }

    constructor (net: Network)
      ensures Valid() && this.net == net && token == ""
    {
      this.net := net;
      token, expiresAt := "", 0;
    }

    /** A token is served from the cache only while it is fresh: never when
        expires_in - 30s have passed since its fetch completed, if it came with
        more than 30s. Otherwise one is fetched, and served whatever its lifetime. */
    method Token() returns (r: Option<string>)
      requires Valid()
      modifies this, net
      ensures Valid() && net.Spent()
      ensures net.log == old(net.log) <==> old(token) != "" && old(net.clock) < old(expiresAt)
      ensures net.log == old(net.log) ==>
                && r == Some(token) && token == old(token) != ""
                && fetchedAt == old(fetchedAt) && expiresIn == old(expiresIn) && net.clock == old(net.clock)
                && (expiresIn > 30 ==> net.clock < fetchedAt + (expiresIn - 30) * SECOND)
                && (expiresIn <= 30 ==> net.clock < fetchedAt + expiresIn * SECOND)
      ensures net.log != old(net.log) ==>
                && |net.log| == |old(net.log)| + 1
                && var x := net.log[|old(net.log)|];
                && x.TokenExchange? && x.began == old(net.clock) && x.ended == net.clock
                && r == (if x.granted.Some? then Some(x.granted.value.token) else None)
                && (r.Some? ==> token == r.value != "")
                && (r.Some? ==> fetchedAt == net.clock && expiresIn == x.granted.value.expiresIn)
                && (r.Some? ==>
                      expiresAt == net.clock + (if expiresIn > 30 then expiresIn - 30 else expiresIn) * SECOND)
                && (r.None? ==> token == old(token))
    {
      if token != "" && net.clock < expiresAt {
        return Some(token);
      }
      var granted := net.FetchToken();
      if granted.None? {
        return None;
      }
      token := granted.value.token;
      expiresAt := net.clock + Lifetime(granted.value.expiresIn);
      fetchedAt, expiresIn := net.clock, granted.value.expiresIn;
      return Some(token);
    }

    /** The next Token call fetches. */
    method Invalidate()
      requires Valid()
      modifies this
      ensures Valid() && token == ""
    {
      token := "";
    }
  }
}
