/**
 * The fixed-window rate limiter with its blocklist.
 *
 * Module-level state of the middleware (the `requestCounts` map, the
 * `blocklist` set and the `limiterConfigs` map) is one `Limiter` object.
 * A refused request is answered with status 429 (Too Many Requests, section 4
 * of RFC 6585) and a `Retry-After` header in delay-seconds (section 10.2.3 of
 * RFC 9110). The five-minute cleanup timer becomes `Sweep(now)` and the
 * one-hour unblock timer becomes `Unblock(key)`; time is an integer number of
 * milliseconds.
 */
module RateLimiter {
  import opened JsCore

  /** The options one `rateLimit(...)` call is created with. */
  datatype Config = Config(id: string, windowMs: nat, max: nat, message: string)

  const DefaultMessage := "Too many requests, please try again later."

  /** `rateLimit()` with no options. */
  const DefaultLimiter := Config("default", 60000, 100, DefaultMessage)
  const AuthLimiter := Config("auth", 15 * 60 * 1000, 5, "Too many login attempts. Please try again in 15 minutes.")
  const ApiLimiter := Config("api", 60 * 1000, 100, DefaultMessage)
  const StrictLimiter := Config("strict", 60 * 1000, 10, DefaultMessage)
  const ChatbotLimiter := Config("chatbot", 60 * 1000, 20, "You are sending messages too quickly. Please slow down.")

  /** Seconds a blocklisted key is told to wait, and how long it stays blocked (ms). */
  const BlockRetryAfter := 3600
  const BlockDurationMs := 3600000
  /** Window the sweep assumes for an entry whose limiter it does not know. */
  const UnknownWindowMs := 60000

  datatype Entry = Entry(count: nat, windowStart: int, limiterId: string)

  datatype Decision =
    | Pass
    | Blocked(retryAfter: int)
    | Limited(message: string, retryAfterHeader: int, retryAfter: int)

  /** The counter key: `${id}:${req.ip}`. */
  function Key(id: string, ip: string): (k: string)
    ensures |k| == |id| + 1 + |ip|
    ensures k[..|id|] == id && k[|id|] == ':' && k[|id| + 1..] == ip
  {
    id + ":" + ip
  }

  /** Two limiters whose ids hold no ':' never share a counter, whatever the addresses. */
  lemma KeysSeparateLimiters(id1: string, ip1: string, id2: string, ip2: string)
    requires ':' !in id1 && ':' !in id2 && id1 != id2
    ensures Key(id1, ip1) != Key(id2, ip2)
  {
    var k1, k2 := Key(id1, ip1), Key(id2, ip2);
    if |id1| < |id2| {
      assert k1[|id1|] == ':' != id2[|id1|] == k2[|id1|];
    } else if |id2| < |id1| {
      assert k2[|id2|] == ':' != id1[|id2|] == k1[|id2|];
    } else {
      assert k1[..|id1|] == id1 && k2[..|id2|] == id2;
    }
  }

  /** `Math.ceil(x / 1000)` for an integer `x`. */
  function CeilSeconds(x: int): (r: int)
    ensures 1000 * (r - 1) < x <= 1000 * r
  {
    -((-x) / 1000)
  }

  /** The wait left in a window lies between zero and the whole window, in seconds. */
  lemma RemainingWaitBounds(windowMs: nat, elapsed: int)
    requires elapsed <= windowMs
    ensures 0 <= elapsed ==> 0 <= CeilSeconds(windowMs - elapsed) <= CeilSeconds(windowMs)
  {
  }

  /** What one request does to its key's entry: the decision, the entry afterwards,
      and whether the key is to be blocklisted. */
  datatype Step = Step(decision: Decision, entry: Entry, block: bool)

  /** The middleware's decision for a key that is not blocklisted, given its entry. */
  function Admit(cfg: Config, prior: Option<Entry>, now: int): (s: Step)
    // the first request of a key, and the first after its window has run out, opens a window
    ensures prior.None? || now - prior.value.windowStart > cfg.windowMs ==>
              s.decision == Pass && s.entry.count == 1 && s.entry.windowStart == now && !s.block
    // inside the window the count grows by one whether or not the request passes
    ensures prior.Some? && now - prior.value.windowStart <= cfg.windowMs ==>
              s.entry == prior.value.(count := prior.value.count + 1) &&
              (s.decision == Pass <==> s.entry.count <= cfg.max) &&
              (s.block <==> s.entry.count > 3 * cfg.max)
    ensures s.decision != Pass ==>
              s.decision.Limited? && s.decision.message == cfg.message &&
              s.decision.retryAfterHeader == CeilSeconds(cfg.windowMs)
    // the advertised wait never exceeds the header and is never negative
    ensures s.decision.Limited? && prior.value.windowStart <= now ==>
              0 <= s.decision.retryAfter <= s.decision.retryAfterHeader
    ensures s.block ==> s.decision.Limited?
    // the body's wait is what is left of the window, in whole seconds rounded up
    ensures s.decision.Limited? ==>
              prior.Some? && s.decision.retryAfter == CeilSeconds(cfg.windowMs - (now - prior.value.windowStart))
    // a new entry is tagged with this limiter's id, and an existing entry keeps its tag
    ensures s.entry.limiterId == if prior.None? then cfg.id else prior.value.limiterId
  {
    match prior
    case None => Step(Pass, Entry(1, now, cfg.id), false)
    case Some(e) =>
      if now - e.windowStart > cfg.windowMs then Step(Pass, e.(count := 1, windowStart := now), false)
      else
        var e' := e.(count := e.count + 1);
        if e'.count > cfg.max then
          var elapsed := now - e.windowStart;
          RemainingWaitBounds(cfg.windowMs, elapsed);
          Step(Limited(cfg.message, CeilSeconds(cfg.windowMs), CeilSeconds(cfg.windowMs - elapsed)),
               e', e'.count > 3 * cfg.max)
        else Step(Pass, e', false)
  }

  /** The window the sweep uses for an entry: its limiter's, or one minute. */
  function SweepWindow(configs: map<string, Config>, e: Entry): nat
  {
    if e.limiterId in configs then configs[e.limiterId].windowMs else UnknownWindowMs
  }

  predicate Stale(configs: map<string, Config>, e: Entry, now: int)
  {
    now - e.windowStart > SweepWindow(configs, e)
  }

  /** The entries that survive a sweep at `now`. */
  function Swept(counts: map<string, Entry>, configs: map<string, Config>, now: int): (r: map<string, Entry>)
    ensures forall k :: k in r <==> k in counts && !Stale(configs, counts[k], now)
    ensures forall k :: k in r ==> r[k] == counts[k]
  {
    map k | k in counts && !Stale(configs, counts[k], now) :: counts[k]
  }

  /** Sweeping is unobservable: an entry the sweep removed would have been reset by the
      next request of its own limiter anyway, so that request sees the same thing. */
  lemma SweepIsUnobservable(cfg: Config, configs: map<string, Config>, e: Entry, sweptAt: int, now: int)
    requires e.limiterId == cfg.id && cfg.id in configs && configs[cfg.id].windowMs == cfg.windowMs
    requires Stale(configs, e, sweptAt) && sweptAt <= now
    ensures Admit(cfg, Some(e), now) == Admit(cfg, None, now)
  {
  }

  /** Requests for one key, replayed in order: how many passed, the entry left behind
      and whether the key ended up blocklisted. A blocklisted key is refused without
      its entry being touched. */
  function Replay(cfg: Config, prior: Option<Entry>, blocked: bool, times: seq<int>): (r: (nat, Option<Entry>, bool))
    ensures r.0 <= |times|
    // a blocklisted key stays blocklisted, passes nothing and keeps its entry
    ensures blocked ==> r == (0, prior, true)
    decreases |times|
  {
    if times == [] then (0, prior, blocked)
    else if blocked then Replay(cfg, prior, true, times[1..])
    else
      var s := Admit(cfg, prior, times[0]);
      var rest := Replay(cfg, Some(s.entry), s.block, times[1..]);
      (rest.0 + (if s.decision == Pass then 1 else 0), rest.1, rest.2)
  }

  predicate InWindow(cfg: Config, start: int, times: seq<int>)
  {
    forall i :: 0 <= i < |times| ==> times[i] - start <= cfg.windowMs
  }

  /** Inside one window, a key whose count is already `c` gets exactly the passes that
      remain below `max`; every further request is refused. */
  lemma {:induction false} ReplayInWindow(cfg: Config, e: Entry, blocked: bool, times: seq<int>)
    requires InWindow(cfg, e.windowStart, times)
    requires blocked ==> e.count > cfg.max
    ensures Replay(cfg, Some(e), blocked, times).0 == if e.count >= cfg.max then 0 else Min(|times|, cfg.max - e.count)
    decreases |times|
  {
    if times != [] {
      assert InWindow(cfg, e.windowStart, times[1..]) by {
        forall i | 0 <= i < |times[1..]| ensures times[1..][i] - e.windowStart <= cfg.windowMs {
          assert times[1..][i] == times[i + 1];
        }
      }
      if blocked {
        ReplayInWindow(cfg, e, true, times[1..]);
      } else {
        assert times[0] - e.windowStart <= cfg.windowMs;
        var s := Admit(cfg, Some(e), times[0]);
        assert s.entry.windowStart == e.windowStart;
        ReplayInWindow(cfg, s.entry, s.block, times[1..]);
      }
    }
  }

  function Min(a: int, b: int): int { if a <= b then a else b }

  /** A fresh key's burst within one window: at most `max` requests pass (one, when
      `max` is 0, since the opening request is never checked). */
  lemma FreshWindowCap(cfg: Config, times: seq<int>)
    requires times != [] && InWindow(cfg, times[0], times)
    ensures Replay(cfg, None, false, times).0 == if cfg.max == 0 then 1 else Min(|times|, cfg.max)
  {
    var s := Admit(cfg, None, times[0]);
    assert InWindow(cfg, s.entry.windowStart, times[1..]) by {
      forall i | 0 <= i < |times[1..]| ensures times[1..][i] - times[0] <= cfg.windowMs {
        assert times[1..][i] == times[i + 1];
      }
    }
    ReplayInWindow(cfg, s.entry, false, times[1..]);
  }

  class Limiter {
    var requestCounts: map<string, Entry>
    var blocklist: set<string>
    var limiterConfigs: map<string, Config>

    constructor ()
      ensures requestCounts == map[] && blocklist == {} && limiterConfigs == map[]
    {
      requestCounts, blocklist, limiterConfigs := map[], {}, map[];
    }

    /** `rateLimit(options)`: remembers the limiter's window for the sweep. */
    method Register(cfg: Config)
      modifies this
      ensures limiterConfigs == old(limiterConfigs)[cfg.id := cfg]
      ensures requestCounts == old(requestCounts) && blocklist == old(blocklist)
    {
      limiterConfigs := limiterConfigs[cfg.id := cfg];
    }

    /** One request from `ip` through the limiter `cfg` at time `now`. */
    method Handle(cfg: Config, ip: string, now: int) returns (d: Decision)
      modifies this
      ensures limiterConfigs == old(limiterConfigs)
      ensures Key(cfg.id, ip) in old(blocklist) ==>
                d == Blocked(BlockRetryAfter) && requestCounts == old(requestCounts) && blocklist == old(blocklist)
      ensures Key(cfg.id, ip) !in old(blocklist) ==>
                var key := Key(cfg.id, ip);
                var s := Admit(cfg, if key in old(requestCounts) then Some(old(requestCounts)[key]) else None, now);
                d == s.decision &&
                requestCounts == old(requestCounts)[key := s.entry] &&
                blocklist == if s.block then old(blocklist) + {key} else old(blocklist)
    {
      var key := Key(cfg.id, ip);
      if key in blocklist {
        return Blocked(BlockRetryAfter);
      }
      var prior := if key in requestCounts then Some(requestCounts[key]) else None;
      var s := Admit(cfg, prior, now);
      requestCounts := requestCounts[key := s.entry];
      if s.block {
        blocklist := blocklist + {key};
      }
      d := s.decision;
    }

    /** The unblock timer firing for `key`. */
    method Unblock(key: string)
      modifies this
      ensures blocklist == old(blocklist) - {key}
      ensures requestCounts == old(requestCounts) && limiterConfigs == old(limiterConfigs)
    {
      blocklist := blocklist - {key};
    }

    /** The cleanup timer: deletes every entry older than its limiter's window. */
    method Sweep(now: int)
      modifies this
      ensures requestCounts == Swept(old(requestCounts), limiterConfigs, now)
      ensures blocklist == old(blocklist) && limiterConfigs == old(limiterConfigs)
    {
      var keys := requestCounts.Keys;
      ghost var before := requestCounts;
      while keys != {}
        invariant keys <= before.Keys
        invariant blocklist == old(blocklist) && limiterConfigs == old(limiterConfigs)
        invariant forall k :: k in requestCounts <==>
                    k in before && (k in keys || !Stale(limiterConfigs, before[k], now))
        invariant forall k :: k in requestCounts ==> requestCounts[k] == before[k]
        decreases keys
      {
        var k :| k in keys;
        if Stale(limiterConfigs, requestCounts[k], now) {
          requestCounts := requestCounts - {k};
        }
        keys := keys - {k};
      }
      assert requestCounts == Swept(before, limiterConfigs, now);
    }
  }
}
