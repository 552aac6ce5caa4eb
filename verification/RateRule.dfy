/** The rate limiter's answers told from the answers so far, without its buckets (rate_limiter.go). */
module RateRule {
  import opened RateLimiter

  /** How many requests of `ip` a run granted from its event i on. */
  function GrantedFrom(cfg: Config, events: seq<Event>, evicting: bool, ip: Ip, i: nat): int
    requires i <= |events|
  {
    Grants(cfg, events, evicting, ip) - Grants(cfg, events[..i], evicting, ip)
  }

  /** One request more at `now` keeps every window that begins with an event within burst + rps * length. */
  ghost predicate KeepsWindows(cfg: Config, events: seq<Event>, ip: Ip, now: real) {
    forall i | 0 <= i < |events| ::
      (GrantedFrom(cfg, events, true, ip, i) + 1) as real <= cfg.burst as real + cfg.rps * (now - events[i].now)
  }

  /** A window's grants and the tokens left reach just the window's bound. */
  ghost predicate Used(cfg: Config, events: seq<Event>, ip: Ip, i: nat, later: real)
    requires i < |events|
  {
    GrantedFrom(cfg, events, false, ip, i) as real + Available(cfg, After(cfg, events, false), ip, later)
    == Burst(cfg) + Refill(cfg, later - events[i].now)
  }

  lemma AvailableLater(cfg: Config, clients: map<Ip, Client>, ip: Ip, now: real, later: real)
    requires cfg.rps >= 0.0 && now <= later
    ensures Available(cfg, clients, ip, later)
         == Min(Burst(cfg), Available(cfg, clients, ip, now) + Refill(cfg, later - now))
  {
    RefillGrows(cfg, 0.0, later - now);
    if ip in clients {
      RefillSplits(cfg, now - clients[ip].lastSeen, later - now);
      assert later - clients[ip].lastSeen == (now - clients[ip].lastSeen) + (later - now);
    }
  }

  /** One more event at its own moment. */
  lemma LastEventUses(cfg: Config, events: seq<Event>, ip: Ip) returns (granted: int)
    requires events != []
    ensures var front, e := events[..|events| - 1], events[|events| - 1];
            && Grants(cfg, events, false, ip) == Grants(cfg, front, false, ip) + granted
            && Available(cfg, After(cfg, events, false), ip, e.now)
               == Available(cfg, After(cfg, front, false), ip, e.now) - granted as real
  {
    assert [] + events == events && [] + events[..|events| - 1] == events[..|events| - 1];
    granted := EventTakes(cfg, [], events, ip);
  }

  lemma UsedLater(cfg: Config, events: seq<Event>, ip: Ip, i: nat, now: real, later: real)
    requires cfg.rps >= 0.0 && now <= later && i < |events| && Used(cfg, events, ip, i, now)
    ensures Available(cfg, After(cfg, events, false), ip, later) == Burst(cfg) || Used(cfg, events, ip, i, later)
  {
    hide Refill, Available, Grants, After;
    AvailableLater(cfg, After(cfg, events, false), ip, now, later);
    RefillSplits(cfg, now - events[i].now, later - now);
    assert later - events[i].now == (now - events[i].now) + (later - now);
  }

  lemma UsedFromFull(cfg: Config, events: seq<Event>, ip: Ip)
    requires events != []
    requires var n := |events| - 1;
             Available(cfg, After(cfg, events[..n], false), ip, events[n].now) == Burst(cfg)
    ensures Used(cfg, events, ip, |events| - 1, events[|events| - 1].now)
  {
    hide Available, Grants, After;
    var granted := LastEventUses(cfg, events, ip);
    assert Refill(cfg, 0.0) == 0.0;
  }

  lemma UsedStays(cfg: Config, events: seq<Event>, ip: Ip, i: nat)
    requires events != [] && i < |events| - 1
    requires Used(cfg, events[..|events| - 1], ip, i, events[|events| - 1].now)
    ensures Used(cfg, events, ip, i, events[|events| - 1].now)
  {
    hide Available, Grants, After, Refill;
    var granted := LastEventUses(cfg, events, ip);
    var front := events[..|events| - 1];
    assert front[..i] == events[..i];
    var before := GrantedFrom(cfg, front, false, ip, i);
    assert (before + granted) as real == before as real + granted as real;
  }

  /** Either the bucket is full, or some window of the run has been used to the full. */
  lemma {:induction false} FullOrUsed(cfg: Config, events: seq<Event>, ip: Ip, later: real)
    requires cfg.rps >= 0.0 && Ordered(events) && Clock(events, later) <= later
    ensures || Available(cfg, After(cfg, events, false), ip, later) == Burst(cfg)
            || exists i | 0 <= i < |events| :: Used(cfg, events, ip, i, later)
    decreases |events|
  {
    hide Available, Grants, Refill, Used, Burst;
    if events == [] {
      NoBucket(cfg, ip, later);
    } else {
      var n := |events| - 1;
      var front, now := events[..n], events[n].now;
      hide After;
      FullOrUsed(cfg, front, ip, now);
      if Available(cfg, After(cfg, front, false), ip, now) == Burst(cfg) {
        UsedFromFull(cfg, events, ip);
        UsedLater(cfg, events, ip, n, now, later);
      } else {
        var i :| 0 <= i < n && Used(cfg, front, ip, i, now);
        UsedStays(cfg, events, ip, i);
        UsedLater(cfg, events, ip, i, now, later);
      }
    }
  }

  lemma NoBucket(cfg: Config, ip: Ip, now: real)
    ensures Available(cfg, After(cfg, [], false), ip, now) == Burst(cfg)
  {
  }

  /** No window is used beyond its bound. */
  lemma WindowHolds(cfg: Config, events: seq<Event>, ip: Ip, i: nat, later: real)
    requires cfg.rps >= 0.0 && Ordered(events) && i < |events| && Clock(events, later) <= later
    ensures GrantedFrom(cfg, events, false, ip, i) as real + Available(cfg, After(cfg, events, false), ip, later)
         <= Burst(cfg) + Refill(cfg, later - events[i].now)
  {
    hide Available, Grants, Refill, Ordered, After, Bounded;
    var pre, win := events[..i], events[i..];
    assert pre + win == events;
    GrantsUseTokens(cfg, pre, win, ip, win[0].now);
    WaitingFills(cfg, pre, win, ip, win[0].now, later);
  }

  lemma AtMostFull(cfg: Config, clients: map<Ip, Client>, ip: Ip, now: real)
    ensures Available(cfg, clients, ip, now) <= Burst(cfg)
  {
  }

  /** Without eviction there is a token exactly when every window leaves room for one. */
  lemma TokenExactly(cfg: Config, events: seq<Event>, ip: Ip, now: real)
    requires cfg.rps >= 0.0 && Ordered(events) && Clock(events, now) <= now
    ensures Available(cfg, After(cfg, events, false), ip, now) >= 1.0 <==>
            && cfg.burst >= 1
            && forall i | 0 <= i < |events| ::
                 (GrantedFrom(cfg, events, false, ip, i) + 1) as real <= Burst(cfg) + Refill(cfg, now - events[i].now)
  {
    hide Available, GrantedFrom, Refill, Ordered, After;
    var left := Available(cfg, After(cfg, events, false), ip, now);
    AtMostFull(cfg, After(cfg, events, false), ip, now);
    forall i | 0 <= i < |events| && left >= 1.0
      ensures (GrantedFrom(cfg, events, false, ip, i) + 1) as real <= Burst(cfg) + Refill(cfg, now - events[i].now)
    {
      WindowHolds(cfg, events, ip, i, now);
    }
    FullOrUsed(cfg, events, ip, now);
    if left != Burst(cfg) {
      var i :| 0 <= i < |events| && Used(cfg, events, ip, i, now);
      var granted := GrantedFrom(cfg, events, false, ip, i);
      assert (granted + 1) as real == granted as real + 1.0;
    }
  }

  /** Under the premise of EvictionSimulates, both limiters have granted as much in each window. */
  lemma SameWindows(cfg: Config, events: seq<Event>, ip: Ip, i: nat)
    requires Sane(cfg) && Refill(cfg, cfg.staleAfter) >= Burst(cfg) && Ordered(events) && i <= |events|
    ensures GrantedFrom(cfg, events, true, ip, i) == GrantedFrom(cfg, events, false, ip, i)
  {
    hide After, Refill, Grants, SameAnswers, Ordered, Simulates;
    assert events[..i] + events[i..] == events;
    OrderedPrefix(events[..i], events[i..]);
    EvictionSimulates(cfg, events, 0.0);
    EvictionSimulates(cfg, events[..i], 0.0);
    SameGrants(cfg, events, ip);
    SameGrants(cfg, events[..i], ip);
  }

  /** An answer of the evicting limiter, by the tokens that the other one has. */
  lemma GrantedByTokens(cfg: Config, events: seq<Event>, ip: Ip, now: real)
    requires Sane(cfg) && Refill(cfg, cfg.staleAfter) >= Burst(cfg) && Ordered(events + [Request(ip, now)])
    ensures Granted(cfg, events + [Request(ip, now)], true)
            <==> Available(cfg, After(cfg, events, false), ip, now) >= 1.0
  {
    hide After, Refill, Ordered, Simulates, Available;
    EvictionSimulates(cfg, events + [Request(ip, now)], now);
    LastAnswer(cfg, events, ip, now);
  }

  lemma LastAnswer(cfg: Config, events: seq<Event>, ip: Ip, now: real)
    requires SameAnswers(cfg, events + [Request(ip, now)])
    ensures Granted(cfg, events + [Request(ip, now)], true)
            <==> Available(cfg, After(cfg, events, false), ip, now) >= 1.0
  {
    hide After, Refill, Available;
    assert (events + [Request(ip, now)])[..|events|] == events;
  }

  lemma OrderedBefore(events: seq<Event>, e: Event)
    requires Ordered(events + [e])
    ensures Ordered(events) && Clock(events, e.now) <= e.now
  {
    assert (events + [e])[..|events|] == events;
    assert events != [] ==> (events + [e])[|events| - 1] == events[|events| - 1];
  }

  /**
   * Under that premise the evicting limiter grants a request exactly when it can: when the burst allows one at all, and
   * every window from an event so far to the request, with it, stays within burst + rps * length.
   */
  lemma GrantedExactly(cfg: Config, events: seq<Event>, ip: Ip, now: real)
    requires Sane(cfg) && cfg.rps * cfg.staleAfter >= cfg.burst as real && Ordered(events + [Request(ip, now)])
    ensures Granted(cfg, events + [Request(ip, now)], true) <==> cfg.burst >= 1 && KeepsWindows(cfg, events, ip, now)
  {
    hide After, Ordered, Available, GrantedFrom, Granted;
    OrderedBefore(events, Request(ip, now));
    GrantedByTokens(cfg, events, ip, now);
    TokenExactly(cfg, events, ip, now);
    forall i | 0 <= i < |events|
      ensures GrantedFrom(cfg, events, true, ip, i) == GrantedFrom(cfg, events, false, ip, i)
    {
      SameWindows(cfg, events, ip, i);
    }
  }
}
