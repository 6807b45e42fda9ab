/**
 * The allowed-origins lookup behind the CORS check: an in-memory copy kept
 * for a fixed time, refilled from Redis or, when Redis has nothing or fails,
 * from a comma-separated environment variable. The clock, Redis (with its
 * JSON parse) and the environment are parameters.
 */
module CorsService {
  import opened Wrappers
  import Js

  /** How long a refilled list is served from memory, in milliseconds (nine minutes). */
  const OriginsCacheTtl: int := 540000

  /**
   * What the Redis read gives: a stored list (`Hit`), nothing or an empty
   * string (`Miss`), or an error from the read or the parse (`Failure`).
   */
  datatype Lookup = Hit(origins: seq<string>) | Miss | Failure

  /** The environment: `DEBUG`, `ALLOWED_ORIGINS_DEV` and `ALLOWED_ORIGINS_PROD`. */
  datatype Env = Env(debug: Option<string>, dev: Option<string>, prod: Option<string>)

  /** The variable read: the development one exactly when `DEBUG` is the string "true". */
  function SelectEnv(env: Env): (raw: Option<string>)
    ensures env.debug == Some("true") ==> raw == env.dev
    ensures env.debug != Some("true") ==> raw == env.prod
  {
    if env.debug == Some("true") then env.dev else env.prod
  }

  /**
   * The environment's list: nothing for an absent or empty variable,
   * otherwise its comma-separated pieces, each trimmed.
   */
  function EnvOrigins(raw: Option<string>): (r: seq<string>)
    ensures raw.None? || raw.value == "" ==> r == []
    ensures raw.Some? && raw.value != "" ==>
              |r| == |Js.Split(raw.value, ',')|
              && forall i :: 0 <= i < |r| ==> r[i] == Js.Trim(Js.Split(raw.value, ',')[i])
    ensures forall i :: 0 <= i < |r| ==> ',' !in r[i]
  {
    if raw.None? || raw.value == "" then []
    else
      var pieces := Js.Split(raw.value, ',');
      seq(|pieces|, i requires 0 <= i < |pieces| => Js.Trim(pieces[i]))
  }

  /** Every origin from the environment is already trimmed. */
  lemma EnvOriginsTrimmed(raw: Option<string>)
    ensures forall i :: 0 <= i < |EnvOrigins(raw)| ==> Js.Trim(EnvOrigins(raw)[i]) == EnvOrigins(raw)[i]
  {
    var r := EnvOrigins(raw);
    forall i | 0 <= i < |r| ensures Js.Trim(r[i]) == r[i] {
      Js.TrimIdempotent(Js.Split(raw.value, ',')[i]);
    }
  }

  /**
   * A variable written without whitespace comes back as itself when its
   * origins are joined with commas.
   */
  lemma EnvOriginsRoundTrip(raw: Option<string>)
    ensures raw.Some? && raw.value != "" && (forall k :: 0 <= k < |raw.value| ==> !Js.IsWhitespace(raw.value[k])) ==>
              Js.Join(EnvOrigins(raw), ",") == raw.value
  {
    var r := EnvOrigins(raw);
    if raw.Some? && raw.value != "" && (forall k :: 0 <= k < |raw.value| ==> !Js.IsWhitespace(raw.value[k])) {
      var pieces := Js.Split(raw.value, ',');
      forall i | 0 <= i < |pieces| ensures r[i] == pieces[i] {
        PieceOfPlain(raw.value, i);
        Js.TrimPlain(pieces[i]);
      }
      assert r == pieces;
      Js.JoinSplit(raw.value, ',');
    }
  }

  /** A piece of a string without whitespace has none either. */
  lemma {:induction false} PieceOfPlain(s: string, i: nat)
    requires forall k :: 0 <= k < |s| ==> !Js.IsWhitespace(s[k])
    requires i < |Js.Split(s, ',')|
    ensures forall k :: 0 <= k < |Js.Split(s, ',')[i]| ==> !Js.IsWhitespace(Js.Split(s, ',')[i][k])
    decreases |s|
  {
    if |s| > 0 {
      var rest := Js.Split(s[1..], ',');
      if s[0] == ',' {
        if i > 0 {
          PieceOfPlain(s[1..], i - 1);
        }
      } else if i == 0 {
        PieceOfPlain(s[1..], 0);
        assert Js.Split(s, ',')[0] == [s[0]] + rest[0];
      } else {
        PieceOfPlain(s[1..], i);
      }
    }
  }

  /** The list a refill produces: Redis's when it has one, otherwise the environment's. */
  function Refill(lookup: Lookup, env: Env): (r: seq<string>)
    ensures lookup.Hit? ==> r == lookup.origins
    ensures !lookup.Hit? ==> r == EnvOrigins(SelectEnv(env))
  {
    if lookup.Hit? then lookup.origins else EnvOrigins(SelectEnv(env))
  }

  /** The module's memory: the last list and when it stops being served. */
  class OriginsCache {
    var cachedOrigins: Option<seq<string>>
    var cacheExpiry: int

    /** Nothing remembered yet. */
    constructor()
      ensures cachedOrigins.None? && cacheExpiry == 0
    {
      cachedOrigins := None;
      cacheExpiry := 0;
    }

    /** A list is remembered and `now` is before its expiry (an empty list counts). */
    predicate Current(now: int)
      reads this
    {
      cachedOrigins.Some? && now < cacheExpiry
    }

    /**
     * `getAllowedOrigins` at time `now`: the remembered list while it is
     * current, with Redis not consulted and nothing changed; otherwise the
     * refilled list, remembered until `now` plus the TTL.
     */
    method GetAllowedOrigins(now: int, lookup: Lookup, env: Env) returns (origins: seq<string>)
      modifies this
      ensures old(Current(now)) ==> origins == old(cachedOrigins).value && unchanged(this)
      ensures !old(Current(now)) ==>
                origins == Refill(lookup, env)
                && cachedOrigins == Some(origins) && cacheExpiry == now + OriginsCacheTtl
    {
      if cachedOrigins.Some? && now < cacheExpiry {
        return cachedOrigins.value;
      }
      if lookup.Hit? {
        cachedOrigins := Some(lookup.origins);
        cacheExpiry := now + OriginsCacheTtl;
        return lookup.origins;
      }
      var raw := SelectEnv(env);
      var envOrigins := EnvOrigins(raw);
      cachedOrigins := Some(envOrigins);
      cacheExpiry := now + OriginsCacheTtl;
      return envOrigins;
    }
  }

  /**
   * Two calls less than the TTL apart answer the same list, whatever Redis
   * and the environment say at the second one, and an empty list is served
   * from memory like any other.
   */
  method WithinTtl(now1: int, now2: int, lookup1: Lookup, env1: Env, lookup2: Lookup, env2: Env)
    returns (first: seq<string>, second: seq<string>)
    requires now1 <= now2 < now1 + OriginsCacheTtl
    ensures first == Refill(lookup1, env1)
    ensures second == first
  {
    var c := new OriginsCache();
    first := c.GetAllowedOrigins(now1, lookup1, env1);
    second := c.GetAllowedOrigins(now2, lookup2, env2);
  }

  /** Once the TTL has run out, the next call refills from what Redis and the environment say then. */
  method AfterTtl(now1: int, now2: int, lookup1: Lookup, env1: Env, lookup2: Lookup, env2: Env)
    returns (first: seq<string>, second: seq<string>)
    requires now2 >= now1 + OriginsCacheTtl
    ensures first == Refill(lookup1, env1)
    ensures second == Refill(lookup2, env2)
  {
    var c := new OriginsCache();
    first := c.GetAllowedOrigins(now1, lookup1, env1);
    second := c.GetAllowedOrigins(now2, lookup2, env2);
  }
}
