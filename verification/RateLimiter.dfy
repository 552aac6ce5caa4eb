/**
 * The per-IP rate limiter with periodic eviction (rate_limiter.go). The library limiter is taken by its documented
 * contract: a bucket of `burst` tokens, initially full, refilled at `rps`, of which a denied call takes none. The
 * reading of the clock for lastSeen and the call of Allow count as one instant.
 */
module RateLimiter {

  type Ip = string

  /** A bucket: the tokens it held right after it was last seen. */
  datatype Client = Client(tokens: real, lastSeen: real)

  datatype Config = Config(rps: real, burst: nat, staleAfter: real)

  predicate Sane(cfg: Config) {
    cfg.rps >= 0.0 && cfg.staleAfter >= 0.0
  }

  function Min(a: real, b: real): real {
    if a <= b then a else b
  }

  function Burst(cfg: Config): real {
    cfg.burst as real
  }

  function Refill(cfg: Config, elapsed: real): real {
    cfg.rps * elapsed
  }

  function Level(cfg: Config, c: Client, now: real): real {
    Min(Burst(cfg), c.tokens + Refill(cfg, now - c.lastSeen))
  }

  /** The tokens available to `ip`; an IP without a bucket gets a full one. */
  function Available(cfg: Config, clients: map<Ip, Client>, ip: Ip, now: real): real {
    if ip in clients then Level(cfg, clients[ip], now) else Burst(cfg)
  }

  predicate Allowed(cfg: Config, clients: map<Ip, Client>, ip: Ip, now: real) {
    Available(cfg, clients, ip, now) >= 1.0
  }

  function Ask(cfg: Config, clients: map<Ip, Client>, ip: Ip, now: real): map<Ip, Client> {
    var level := Available(cfg, clients, ip, now);
    clients[ip := Client(if level >= 1.0 then level - 1.0 else level, now)]
  }

  function Sweep(cfg: Config, clients: map<Ip, Client>, now: real): map<Ip, Client> {
    map ip | ip in clients && now - clients[ip].lastSeen <= cfg.staleAfter :: clients[ip]
  }

  /** The middleware's state: requests and clean-up passes change the client map in place. */
  class Limiter {
    const cfg: Config
    var clients: map<Ip, Client>

    constructor (rps: real, burst: nat, staleAfter: real)
      ensures cfg == Config(rps, burst, staleAfter) && clients == map[]
    {
      cfg := Config(rps, burst, staleAfter);
      clients := map[];
    }

    method Request(ip: Ip, now: real) returns (allowed: bool)
      modifies this
      ensures allowed <==> Allowed(cfg, old(clients), ip, now)
      ensures clients == Ask(cfg, old(clients), ip, now)
    {
      if ip !in clients {
        clients := clients[ip := Client(Burst(cfg), now)];
        assert Refill(cfg, now - now) == 0.0;
      }
      var level := Level(cfg, clients[ip], now);
      allowed := level >= 1.0;
      clients := clients[ip := Client(if allowed then level - 1.0 else level, now)];
    }

    /** One clean-up pass; `order` is the order, left open by the language, in which the map is walked. */
    method Cleanup(now: real, order: seq<Ip>)
      requires forall ip :: ip in clients <==> ip in order
      modifies this
      ensures clients == Sweep(cfg, old(clients), now)
    {
      ghost var before := clients;
      var k := 0;
      while k < |order|
        invariant 0 <= k <= |order|
        invariant clients.Keys <= before.Keys
        invariant forall ip | ip in clients :: clients[ip] == before[ip]
        invariant forall ip | ip in before ::
          ip in clients <==> !(ip in order[..k] && now - before[ip].lastSeen > cfg.staleAfter)
      {
        var ip := order[k];
        assert order[..k + 1] == order[..k] + [ip];
        if ip in clients && now - clients[ip].lastSeen > cfg.staleAfter {
          clients := clients - {ip};
        }
        k := k + 1;
      }
      assert order[..k] == order;
    }
  }

  // ---------- Runs ----------

  datatype Event = Request(ip: Ip, now: real) | CleanupAt(now: real)

  /** The client map after a run, with or without eviction. */
  function After(cfg: Config, events: seq<Event>, evicting: bool): map<Ip, Client> {
    if events == [] then map[]
    else
      var before := After(cfg, events[..|events| - 1], evicting);
      match events[|events| - 1]
      case Request(ip, now) => Ask(cfg, before, ip, now)
      case CleanupAt(now) => if evicting then Sweep(cfg, before, now) else before
  }

  /** The answer to the last event of a run, if it is a request. */
  predicate Granted(cfg: Config, events: seq<Event>, evicting: bool) {
    events != [] && events[|events| - 1].Request? &&
    Allowed(cfg, After(cfg, events[..|events| - 1], evicting), events[|events| - 1].ip, events[|events| - 1].now)
  }

  /** How many requests of `ip` were allowed in a run. */
  function Grants(cfg: Config, events: seq<Event>, evicting: bool, ip: Ip): nat {
    if events == [] then 0
    else
      Grants(cfg, events[..|events| - 1], evicting, ip)
      + if Granted(cfg, events, evicting) && events[|events| - 1].ip == ip then 1 else 0
  }

  /** The clock does not run backwards. */
  predicate Ordered(events: seq<Event>) {
    events == []
    || (Ordered(events[..|events| - 1])
        && (|events| >= 2 ==> events[|events| - 2].now <= events[|events| - 1].now))
  }

  function Clock(events: seq<Event>, start: real): real {
    if events == [] then start else events[|events| - 1].now
  }

  /** Both limiters answer every request of the run alike. */
  predicate SameAnswers(cfg: Config, events: seq<Event>) {
    events == []
    || (SameAnswers(cfg, events[..|events| - 1]) && (Granted(cfg, events, true) <==> Granted(cfg, events, false)))
  }

  // ---------- Eviction is unobservable ----------

  lemma RefillGrows(cfg: Config, a: real, b: real)
    requires cfg.rps >= 0.0 && a <= b
    ensures Refill(cfg, a) <= Refill(cfg, b)
  {
    assert cfg.rps * (b - a) >= 0.0;
  }

  lemma RefillSplits(cfg: Config, a: real, b: real)
    ensures Refill(cfg, a + b) == Refill(cfg, a) + Refill(cfg, b)
  {
  }

  /** Buckets hold between none and `burst` tokens and were last seen in the past. */
  ghost predicate Sound(cfg: Config, clients: map<Ip, Client>, now: real) {
    forall ip | ip in clients :: 0.0 <= clients[ip].tokens <= Burst(cfg) && clients[ip].lastSeen <= now
  }

  lemma LevelBounds(cfg: Config, clients: map<Ip, Client>, ip: Ip, now: real)
    requires cfg.rps >= 0.0 && Sound(cfg, clients, now)
    ensures 0.0 <= Available(cfg, clients, ip, now) <= Burst(cfg)
  {
    if ip in clients {
      RefillGrows(cfg, 0.0, now - clients[ip].lastSeen);
    }
  }

  lemma {:induction false} NeverEvictingIsSound(cfg: Config, events: seq<Event>, start: real)
    requires cfg.rps >= 0.0 && Ordered(events)
    ensures Sound(cfg, After(cfg, events, false), Clock(events, start))
    decreases |events|
  {
    if events != [] {
      var n := |events| - 1;
      NeverEvictingIsSound(cfg, events[..n], events[n].now);
      var before := After(cfg, events[..n], false);
      assert Sound(cfg, before, events[n].now);
      if events[n].Request? {
        LevelBounds(cfg, before, events[n].ip, events[n].now);
      }
    }
  }

  /** The evicting limiter has a bucket less only where the other one is full. */
  ghost predicate Simulates(cfg: Config, kept: map<Ip, Client>, all: map<Ip, Client>, now: real) {
    && (forall ip | ip in kept :: ip in all && kept[ip] == all[ip])
    && (forall ip | ip in all && ip !in kept :: Level(cfg, all[ip], now) == Burst(cfg))
  }

  lemma FullStaysFull(cfg: Config, c: Client, now: real, later: real)
    requires cfg.rps >= 0.0 && now <= later && Level(cfg, c, now) == Burst(cfg)
    ensures Level(cfg, c, later) == Burst(cfg)
  {
    RefillGrows(cfg, now - c.lastSeen, later - c.lastSeen);
  }

  lemma StaleIsFull(cfg: Config, c: Client, now: real)
    requires cfg.rps >= 0.0 && Refill(cfg, cfg.staleAfter) >= Burst(cfg)
    requires 0.0 <= c.tokens && now - c.lastSeen > cfg.staleAfter
    ensures Level(cfg, c, now) == Burst(cfg)
  {
    RefillGrows(cfg, cfg.staleAfter, now - c.lastSeen);
  }

  lemma {:induction false} EvictionSimulates(cfg: Config, events: seq<Event>, start: real)
    requires cfg.rps >= 0.0 && Refill(cfg, cfg.staleAfter) >= Burst(cfg) && Ordered(events)
    ensures Simulates(cfg, After(cfg, events, true), After(cfg, events, false), Clock(events, start))
    ensures SameAnswers(cfg, events)
    decreases |events|
  {
    if events != [] {
      var n := |events| - 1;
      var e, kept, all := events[n], After(cfg, events[..n], true), After(cfg, events[..n], false);
      EvictionSimulates(cfg, events[..n], e.now);
      NeverEvictingIsSound(cfg, events[..n], e.now);
      var before := Clock(events[..n], e.now);
      hide After, Level, Refill;
      forall ip | ip in all && ip !in kept ensures Level(cfg, all[ip], e.now) == Burst(cfg) {
        FullStaysFull(cfg, all[ip], before, e.now);
      }
      forall ip | ip in all && e.now - all[ip].lastSeen > cfg.staleAfter
          ensures Level(cfg, all[ip], e.now) == Burst(cfg)
      {
        StaleIsFull(cfg, all[ip], e.now);
      }
      AfterLast(cfg, events, true);
      AfterLast(cfg, events, false);
    }
  }

  lemma AfterLast(cfg: Config, events: seq<Event>, evicting: bool)
    requires events != []
    ensures After(cfg, events, evicting) ==
            var before := After(cfg, events[..|events| - 1], evicting);
            match events[|events| - 1]
            case Request(ip, now) => Ask(cfg, before, ip, now)
            case CleanupAt(now) => if evicting then Sweep(cfg, before, now) else before
  {
  }

  // ---------- ... and only then ----------

  /** k requests of one IP at one instant. */
  function Volley(t: real, k: nat): seq<Event> {
    if k == 0 then [] else Volley(t, k - 1) + [Request("ip", t)]
  }

  predicate VolleyGranted(cfg: Config, pre: seq<Event>, t: real, k: nat, evicting: bool) {
    k == 0 || (VolleyGranted(cfg, pre, t, k - 1, evicting) && Granted(cfg, pre + Volley(t, k), evicting))
  }

  lemma VolleyStep(cfg: Config, pre: seq<Event>, t: real, k: nat, evicting: bool)
    requires k > 0
    ensures var before := After(cfg, pre + Volley(t, k - 1), evicting);
            && After(cfg, pre + Volley(t, k), evicting) == Ask(cfg, before, "ip", t)
            && (Granted(cfg, pre + Volley(t, k), evicting) <==> Allowed(cfg, before, "ip", t))
            && (SameAnswers(cfg, pre + Volley(t, k)) ==> SameAnswers(cfg, pre + Volley(t, k - 1)))
            && (pre + Volley(t, k))[|pre + Volley(t, k)| - 1] == Request("ip", t)
            && (pre + Volley(t, k))[..|pre + Volley(t, k)| - 1] == pre + Volley(t, k - 1)
  {
    var events := pre + Volley(t, k);
    assert events[..|events| - 1] == pre + Volley(t, k - 1);
  }

  function TokensBefore(cfg: Config, pre: seq<Event>, t: real, evicting: bool): real {
    Available(cfg, After(cfg, pre, evicting), "ip", t)
  }

  /** A volley that is granted throughout uses up one token a request. */
  lemma {:induction false} VolleyUses(cfg: Config, pre: seq<Event>, t: real, k: nat, evicting: bool)
    requires VolleyGranted(cfg, pre, t, k, evicting)
    ensures var left := TokensBefore(cfg, pre, t, evicting) - k as real;
            && TokensBefore(cfg, pre + Volley(t, k), t, evicting) == left
            && (k > 0 ==> left >= 0.0)
            && (k > 0 ==> var m := After(cfg, pre + Volley(t, k), evicting); "ip" in m && m["ip"] == Client(left, t))
  {
    if k == 0 {
      assert pre + [] == pre;
    } else {
      VolleyUses(cfg, pre, t, k - 1, evicting);
      VolleyStep(cfg, pre, t, k, evicting);
      AskUses(cfg, After(cfg, pre + Volley(t, k - 1), evicting), t);
    }
  }

  lemma AskUses(cfg: Config, clients: map<Ip, Client>, t: real)
    requires Allowed(cfg, clients, "ip", t)
    ensures var left := Available(cfg, clients, "ip", t) - 1.0;
            Ask(cfg, clients, "ip", t)["ip"] == Client(left, t)
                && Available(cfg, Ask(cfg, clients, "ip", t), "ip", t) == left
  {
    assert Refill(cfg, t - t) == 0.0;
  }

  lemma {:induction false} EnoughForVolley(cfg: Config, pre: seq<Event>, t: real, k: nat, evicting: bool)
    requires TokensBefore(cfg, pre, t, evicting) >= k as real
    ensures VolleyGranted(cfg, pre, t, k, evicting)
  {
    if k > 0 {
      EnoughForVolley(cfg, pre, t, k - 1, evicting);
      VolleyUses(cfg, pre, t, k - 1, evicting);
      VolleyStep(cfg, pre, t, k, evicting);
    }
  }

  lemma {:induction false} SameVolley(cfg: Config, pre: seq<Event>, t: real, k: nat)
    requires SameAnswers(cfg, pre + Volley(t, k))
    ensures VolleyGranted(cfg, pre, t, k, true) <==> VolleyGranted(cfg, pre, t, k, false)
  {
    if k > 0 {
      VolleyStep(cfg, pre, t, k, true);
      SameVolley(cfg, pre, t, k - 1);
    }
  }

  lemma OrderedSnoc(events: seq<Event>, e: Event)
    requires Ordered(events) && Clock(events, e.now) <= e.now
    ensures Ordered(events + [e]) && Clock(events + [e], e.now) == e.now
  {
    assert (events + [e])[..|events|] == events;
  }

  lemma VolleyLast(pre: seq<Event>, t: real, k: nat)
    requires k > 0
    ensures pre + Volley(t, k) == (pre + Volley(t, k - 1)) + [Request("ip", t)]
  {
    Associative(pre, Volley(t, k - 1), [Request("ip", t)]);
  }

  lemma Associative(a: seq<Event>, b: seq<Event>, c: seq<Event>)
    ensures a + (b + c) == (a + b) + c
  {
  }

  lemma {:induction false} VolleyOrdered(pre: seq<Event>, t: real, k: nat)
    requires Ordered(pre) && Clock(pre, t) <= t
    ensures Ordered(pre + Volley(t, k)) && Clock(pre + Volley(t, k), t) <= t
  {
    hide Ordered, Clock;
    if k == 0 {
      NoVolley(pre, t);
    } else {
      hide Volley;
      VolleyOrdered(pre, t, k - 1);
      OrderedSnoc(pre + Volley(t, k - 1), Request("ip", t));
      VolleyLast(pre, t, k);
    }
  }

  lemma NoVolley(pre: seq<Event>, t: real)
    ensures pre + Volley(t, 0) == pre
  {
  }

  /** A moment at which an emptied bucket is stale but not yet full again. */
  function BadMoment(cfg: Config): real {
    if cfg.rps <= 0.0 then cfg.staleAfter + 1.0 else (cfg.staleAfter + Burst(cfg) / cfg.rps) / 2.0
  }

  lemma BadMomentIsBad(cfg: Config)
    requires Sane(cfg) && Refill(cfg, cfg.staleAfter) < Burst(cfg)
    ensures cfg.staleAfter < BadMoment(cfg) && Refill(cfg, BadMoment(cfg)) < Burst(cfg) && cfg.burst > 0
  {
    assert Refill(cfg, cfg.staleAfter) >= 0.0 by { RefillGrows(cfg, 0.0, cfg.staleAfter); }
    if cfg.rps > 0.0 {
      var full := Burst(cfg) / cfg.rps;
      assert Refill(cfg, full) == Burst(cfg);
      if full <= cfg.staleAfter {
        RefillGrows(cfg, full, cfg.staleAfter);
      }
      RefillSplits(cfg, cfg.staleAfter / 2.0, full / 2.0);
      RefillSplits(cfg, cfg.staleAfter / 2.0, cfg.staleAfter / 2.0);
      RefillSplits(cfg, full / 2.0, full / 2.0);
      assert BadMoment(cfg) == cfg.staleAfter / 2.0 + full / 2.0;
    }
  }

  /** Empty the bucket, sweep at the bad moment, and ask for a whole burst again. */
  function Emptied(cfg: Config): seq<Event> {
    [] + Volley(0.0, cfg.burst) + [CleanupAt(BadMoment(cfg))]
  }

  function Witness(cfg: Config): seq<Event> {
    Emptied(cfg) + Volley(BadMoment(cfg), cfg.burst)
  }

  lemma EmptiedLevels(cfg: Config)
    requires Sane(cfg) && Refill(cfg, cfg.staleAfter) < Burst(cfg)
    ensures TokensBefore(cfg, Emptied(cfg), BadMoment(cfg), true) == Burst(cfg)
    ensures TokensBefore(cfg, Emptied(cfg), BadMoment(cfg), false) < Burst(cfg)
  {
    BadMomentIsBad(cfg);
    var t, first := BadMoment(cfg), [] + Volley(0.0, cfg.burst);
    assert Emptied(cfg)[..|Emptied(cfg)| - 1] == first;
    EnoughForVolley(cfg, [], 0.0, cfg.burst, true);
    EnoughForVolley(cfg, [], 0.0, cfg.burst, false);
    VolleyUses(cfg, [], 0.0, cfg.burst, true);
    VolleyUses(cfg, [], 0.0, cfg.burst, false);
    AfterLast(cfg, Emptied(cfg), true);
    AfterLast(cfg, Emptied(cfg), false);
    assert After(cfg, first, true)["ip"] == Client(0.0, 0.0) == After(cfg, first, false)["ip"];
  }

  lemma WitnessDiffers(cfg: Config)
    requires Sane(cfg) && Refill(cfg, cfg.staleAfter) < Burst(cfg)
    ensures Ordered(Witness(cfg)) && !SameAnswers(cfg, Witness(cfg))
  {
    hide After, Refill, Available, SameAnswers;
    var t, pre := BadMoment(cfg), Emptied(cfg);
    BadMomentIsBad(cfg);
    EmptiedLevels(cfg);
    VolleyOrdered([], 0.0, cfg.burst);
    assert pre[..|pre| - 1] == [] + Volley(0.0, cfg.burst);
    VolleyOrdered(pre, t, cfg.burst);
    EnoughForVolley(cfg, pre, t, cfg.burst, true);
    if SameAnswers(cfg, Witness(cfg)) {
      SameVolley(cfg, pre, t, cfg.burst);
      VolleyUses(cfg, pre, t, cfg.burst, false);
    }
  }

  /**
   * Eviction is unobservable, for every run of requests and sweeps, exactly when a stale bucket has had the time to
   * fill up: rate times stale time is at least the burst.
   */
  lemma EvictionUnobservableExactly(cfg: Config)
    requires Sane(cfg)
    ensures Refill(cfg, cfg.staleAfter) >= Burst(cfg) <==> forall events | Ordered(events) :: SameAnswers(cfg, events)
  {
    if Refill(cfg, cfg.staleAfter) >= Burst(cfg) {
      forall events | Ordered(events) ensures SameAnswers(cfg, events) {
        EvictionSimulates(cfg, events, 0.0);
      }
    } else {
      WitnessDiffers(cfg);
    }
  }

  // ---------- The window bound ----------

  lemma AvailableGrows(cfg: Config, clients: map<Ip, Client>, ip: Ip, now: real, later: real)
    requires cfg.rps >= 0.0 && now <= later
    ensures Available(cfg, clients, ip, later) <= Available(cfg, clients, ip, now) + Refill(cfg, later - now)
  {
    RefillGrows(cfg, 0.0, later - now);
    if ip in clients {
      RefillSplits(cfg, now - clients[ip].lastSeen, later - now);
      assert later - clients[ip].lastSeen == (now - clients[ip].lastSeen) + (later - now);
    }
  }

  /** Every event of the window falls between t0 and t0 + length. */
  predicate Within(win: seq<Event>, t0: real, length: real) {
    forall i | 0 <= i < |win| :: t0 <= win[i].now <= t0 + length
  }

  /** What a window has granted, plus what is left in the bucket, is within the bound. */
  ghost predicate Bounded(cfg: Config, pre: seq<Event>, win: seq<Event>, ip: Ip, t0: real) {
    var now := Clock(win, t0);
    var granted := Grants(cfg, pre + win, false, ip) - Grants(cfg, pre, false, ip);
    t0 <= now && granted as real + Available(cfg, After(cfg, pre + win, false), ip, now) <= Burst(cfg)
        + Refill(cfg, now - t0)
  }

  lemma NoWindowBounded(cfg: Config, pre: seq<Event>, ip: Ip, t0: real)
    ensures Bounded(cfg, pre, [], ip, t0)
  {
    assert pre + [] == pre;
    assert Refill(cfg, 0.0) == 0.0;
  }

  /** One more event grants one request or none, and takes as much from the bucket. */
  lemma EventTakes(cfg: Config, pre: seq<Event>, win: seq<Event>, ip: Ip) returns (granted: int)
    requires win != [] && (pre + win)[..|pre + win| - 1] == pre + win[..|win| - 1]
    requires (pre + win)[|pre + win| - 1] == win[|win| - 1]
    ensures var front, e := win[..|win| - 1], win[|win| - 1];
            && Grants(cfg, pre + win, false, ip) == Grants(cfg, pre + front, false, ip) + granted
            && Available(cfg, After(cfg, pre + win, false), ip, e.now)
               == Available(cfg, After(cfg, pre + front, false), ip, e.now) - granted as real
  {
    hide After, Refill, Available, Allowed, Grants;
    var front, e := win[..|win| - 1], win[|win| - 1];
    var clients := After(cfg, pre + front, false);
    GrantsLast(cfg, pre + win, ip);
    AfterLast(cfg, pre + win, false);
    granted := 0;
    if e.Request? {
      AskTakes(cfg, clients, e.ip, ip, e.now);
      granted := if e.ip == ip && Allowed(cfg, clients, e.ip, e.now) then 1 else 0;
    }
  }

  lemma WaitingFills(cfg: Config, pre: seq<Event>, front: seq<Event>, ip: Ip, t0: real, later: real)
    requires cfg.rps >= 0.0 && Bounded(cfg, pre, front, ip, t0) && Clock(front, t0) <= later
    ensures (Grants(cfg, pre + front, false, ip) - Grants(cfg, pre, false, ip)) as real
            + Available(cfg, After(cfg, pre + front, false), ip, later) <= Burst(cfg) + Refill(cfg, later - t0)
  {
    hide After, Refill, Available, Grants;
    var before := Clock(front, t0);
    AvailableGrows(cfg, After(cfg, pre + front, false), ip, before, later);
    RefillSplits(cfg, before - t0, later - before);
    assert later - t0 == (before - t0) + (later - before);
  }

  lemma WiderWindowBounded(cfg: Config, pre: seq<Event>, win: seq<Event>, ip: Ip, t0: real)
    requires cfg.rps >= 0.0 && Ordered(pre + win) && win != [] && t0 <= win[0].now
    requires Bounded(cfg, pre, win[..|win| - 1], ip, t0)
    ensures Bounded(cfg, pre, win, ip, t0)
  {
    hide After, Refill, Available, Grants, Ordered;
    WindowShrinks(pre, win, t0);
    WaitingFills(cfg, pre, win[..|win| - 1], ip, t0, win[|win| - 1].now);
    var granted := EventTakes(cfg, pre, win, ip);
    var d := Grants(cfg, pre + win[..|win| - 1], false, ip) - Grants(cfg, pre, false, ip);
    assert (d + granted) as real == d as real + granted as real;
  }

  lemma {:induction false} GrantsUseTokens(cfg: Config, pre: seq<Event>, win: seq<Event>, ip: Ip, t0: real)
    requires cfg.rps >= 0.0 && Ordered(pre + win) && (win != [] ==> t0 <= win[0].now)
    ensures Bounded(cfg, pre, win, ip, t0)
    decreases |win|
  {
    hide Bounded, Ordered;
    if win == [] {
      NoWindowBounded(cfg, pre, ip, t0);
    } else {
      WindowShrinks(pre, win, t0);
      GrantsUseTokens(cfg, pre, win[..|win| - 1], ip, t0);
      WiderWindowBounded(cfg, pre, win, ip, t0);
    }
  }

  lemma WindowShrinks(pre: seq<Event>, win: seq<Event>, t0: real)
    requires win != [] && Ordered(pre + win) && t0 <= win[0].now
    ensures var front := win[..|win| - 1];
            && (pre + win)[..|pre + win| - 1] == pre + front && (pre + win)[|pre + win| - 1] == win[|win| - 1]
            && Ordered(pre + front) && (front != [] ==> t0 <= front[0].now)
            && Clock(front, t0) <= win[|win| - 1].now
  {
    var front := win[..|win| - 1];
    assert (pre + win)[..|pre + win| - 1] == pre + front;
    if front != [] {
      assert (pre + win)[|pre + win| - 2] == front[|front| - 1];
    }
  }

  lemma GrantsLast(cfg: Config, events: seq<Event>, ip: Ip)
    requires events != []
    ensures var front, e := events[..|events| - 1], events[|events| - 1];
            Grants(cfg, events, false, ip) == Grants(cfg, front, false, ip)
              + if e.Request? && e.ip == ip && Allowed(cfg, After(cfg, front, false), e.ip, e.now) then 1 else 0
  {
  }

  lemma AskTakes(cfg: Config, clients: map<Ip, Client>, asked: Ip, ip: Ip, now: real)
    ensures Available(cfg, Ask(cfg, clients, asked, now), ip, now)
            == Available(cfg, clients, ip, now)
               - (if asked == ip && Allowed(cfg, clients, asked, now) then 1 else 0) as real
  {
    assert Refill(cfg, now - now) == 0.0;
  }

  lemma {:induction false} SameGrants(cfg: Config, events: seq<Event>, ip: Ip)
    requires SameAnswers(cfg, events)
    ensures Grants(cfg, events, true, ip) == Grants(cfg, events, false, ip)
    decreases |events|
  {
    if events != [] {
      SameGrants(cfg, events[..|events| - 1], ip);
    }
  }

  lemma {:induction false} OrderedPrefix(pre: seq<Event>, win: seq<Event>)
    requires Ordered(pre + win)
    ensures Ordered(pre)
    decreases |win|
  {
    if win == [] {
      assert pre + win == pre;
    } else {
      assert (pre + win)[..|pre + win| - 1] == pre + win[..|win| - 1];
      OrderedPrefix(pre, win[..|win| - 1]);
    }
  }

  /**
   * Under the premise, the evicting limiter allows an IP at most burst + rps * length requests in any window of that
   * length, whatever happened before.
   */
  lemma WindowBound(cfg: Config, pre: seq<Event>, win: seq<Event>, ip: Ip, t0: real, length: real)
    requires Sane(cfg) && Refill(cfg, cfg.staleAfter) >= Burst(cfg)
    requires Ordered(pre + win) && Clock(pre, t0) <= t0 && Within(win, t0, length) && length >= 0.0
    ensures (Grants(cfg, pre + win, true, ip) - Grants(cfg, pre, true, ip)) as real <= Burst(cfg) + Refill(cfg, length)
  {
    hide After, Refill, Available, Grants, SameAnswers, Ordered;
    OrderedPrefix(pre, win);
    EvictionSimulates(cfg, pre + win, t0);
    EvictionSimulates(cfg, pre, t0);
    SameGrants(cfg, pre + win, ip);
    SameGrants(cfg, pre, ip);
    GrantsUseTokens(cfg, pre, win, ip, t0);
    NeverEvictingIsSound(cfg, pre + win, t0);
    var now := Clock(win, t0);
    assert now <= t0 + length;
    RefillGrows(cfg, now - t0, length);
    assert win != [] ==> Clock(pre + win, t0) == now;
    assert win == [] ==> pre + win == pre;
    SoundLater(cfg, After(cfg, pre + win, false), Clock(pre + win, t0), now);
    LevelBounds(cfg, After(cfg, pre + win, false), ip, now);
  }

  lemma SoundLater(cfg: Config, clients: map<Ip, Client>, now: real, later: real)
    requires Sound(cfg, clients, now) && now <= later
    ensures Sound(cfg, clients, later)
  {
  }

  /** Both uses in the repository meet the premise: the telemetry routes and the global limiter. */
  lemma UsesMeetPremise()
    ensures var telemetry := Config(0.01, 3, 300.0); Refill(telemetry, telemetry.staleAfter) >= Burst(telemetry)
    ensures var api := Config(5.0, 10, 180.0); Refill(api, api.staleAfter) >= Burst(api)
  {
  }
}
