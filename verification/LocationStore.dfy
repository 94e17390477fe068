/** The location store as an object over the expiring map. */
module LocationStore {
  import opened CallStates
  import opened Clocks
  import opened Registrar
  import TtlStore

  /** The list holds the values of `m`, one for each key in `ids`, and `ids` are all the keys. */
  ghost predicate Lists(r: seq<Binding>, ids: seq<BindingId>, m: Bindings) {
    && |r| == |ids| == |m|
    && (forall i :: 0 <= i < |ids| ==> ids[i] in m && r[i] == m[ids[i]])
    && (forall id :: id in m ==> id in ids)
  }

  class Store {
    const bindings: TtlStore.TTLStore<Aor, Bindings>
    const cfg: Config

    constructor (cfg: Config, clock: Clock)
      ensures this.cfg == cfg && fresh(bindings) && bindings.clock == clock && bindings.items == map[]
    {
      this.cfg := cfg;
      bindings := new TtlStore.TTLStore(clock);
    }

    /** The longest remaining time, the clock being read once for each binding. */
    method MaxTtl(bs: Bindings, least: int) returns (m: int, ghost at: BindingId -> int)
      modifies bindings.clock
      ensures old(bindings.clock.now) <= bindings.clock.now
      ensures TtlStore.ScansWithin(at, old(bindings.clock.now), bindings.clock.now)
      ensures IsMaxTtl(bs, at, least, m)
    {
      m := least;
      var todo := bs.Keys;
      ghost var start := bindings.clock.now;
      at := _ => start;
      while todo != {}
        invariant todo <= bs.Keys && start == old(bindings.clock.now) <= bindings.clock.now
        invariant TtlStore.ScansWithin(at, start, bindings.clock.now)
        invariant IsMaxTtl(bs - todo, at, least, m)
        decreases |todo|
      {
        SomeElement(todo);
        var id :| id in todo;
        var now := bindings.clock.Now();
        ghost var before, m0 := at, m;
        at := TtlStore.Revised(at, id, now);
        if Ttl(bs[id], now) > m {
          m := Ttl(bs[id], now);
        }
        MaxOne(bs, todo, before, least, m0, id, now);
        todo := todo - {id};
      }
      assert bs - {} == bs;
    }

    /** Replaces the entry of an AOR by one that lasts as long as its longest binding. */
    method Put(aor: Aor, bs: Bindings, least: int) returns (m: int, ghost at: BindingId -> int)
      modifies bindings, bindings.clock
      ensures old(bindings.clock.now) <= bindings.clock.now
      ensures TtlStore.ScansWithin(at, old(bindings.clock.now), bindings.clock.now)
      ensures IsMaxTtl(bs, at, least, m)
      ensures bindings.items == old(bindings.items)[aor := TtlStore.Entry(bs, bindings.clock.now + m)]
    {
      ghost var start := bindings.clock.now;
      m, at := MaxTtl(bs, least);
      ghost var last := bindings.clock.now;
      bindings.Set(aor, bs, m);
      LaterScan(at, start, last, bindings.clock.now);
    }

    method Register(b: Binding) returns (r: Registered, ghost e: Event)
      modifies bindings, bindings.clock
      ensures e.Register? && e.binding == b && old(bindings.clock.now) <= e.start && e.end <= bindings.clock.now
      ensures Enabled(cfg, old(bindings.items), e) && bindings.items == Apply(cfg, old(bindings.items), e)
      ensures r == RegisterOutcome(cfg, old(bindings.items), b, e.start, e.get)
      ensures var id := if b.id == "" then cfg.idOf(b.contact, b.instance) else b.id;
              var asked := if b.expires <= 0 then cfg.defaultExpires else b.expires;
              var items := old(bindings.items);
              r == if b.aor == "" then EmptyAor
                   else if b.contact == "" then EmptyContact
                   else if asked < cfg.minExpires then TooBrief
                   else if && Holds(items, b.aor, id, e.get) && items[b.aor].value[id].callId == b.callId
                           && b.cseq <= items[b.aor].value[id].cseq then StaleCSeq
                   else Accepted(Stamped(cfg, b, e.start))
    {
      ghost var t0, was := bindings.clock.now, bindings.items;
      e := Event.Register(b, t0, t0, _ => t0, 0, t0);
      if b.aor == "" {
        return EmptyAor, e;
      }
      if b.contact == "" {
        return EmptyContact, e;
      }
      if Requested(cfg, b) < cfg.minExpires {
        return TooBrief, e;
      }
      var now := bindings.clock.Now();
      var s := Stamped(cfg, b, now);
      var found := bindings.Get(b.aor);
      ghost var get := bindings.clock.now;
      var bs: Bindings := if found.Some? then found.value else map[];
      assert bs == Found(was, b.aor, get);
      if s.id in bs && !ValidCSeq(bs[s.id], b.callId, b.cseq) {
        StaleEvent(cfg, was, b, now, get);
        return StaleCSeq, Event.Register(b, now, get, _ => get, 0, get);
      }
      bs := bs[s.id := s];
      ghost var ttls: BindingId -> int;
      var maxTtl;
      maxTtl, ttls := Put(b.aor, bs, s.expires * SECOND);
      AcceptedEvent(cfg, was, b, now, get, ttls, maxTtl, bindings.clock.now);
      e := Event.Register(b, now, get, ttls, maxTtl, bindings.clock.now);
      r := Accepted(s);
    }

    method Unregister(aor: Aor, id: BindingId, wildcard: bool) returns (r: Unregistered, ghost e: Event)
      modifies bindings, bindings.clock
      ensures e.Unregister? && e.aor == aor && e.id == id && e.wildcard == wildcard
      ensures old(bindings.clock.now) <= e.get && e.end <= bindings.clock.now
      ensures Enabled(cfg, old(bindings.items), e) && bindings.items == Apply(cfg, old(bindings.items), e)
      ensures r == UnregisterOutcome(old(bindings.items), aor, id, wildcard, e.get)
      ensures var items := old(bindings.items);
              r == if wildcard || Holds(items, aor, id, e.get) then Removed
                   else if aor in items && e.get <= items[aor].expiresAt then NoSuchBinding
                   else NoBindings
    {
      ghost var was := bindings.items;
      if wildcard {
        ghost var now := bindings.clock.now;
        var _ := bindings.Delete(aor);
        return Removed, Event.Unregister(aor, id, wildcard, now, _ => now, 0, now);
      }
      var found := bindings.Get(aor);
      ghost var get := bindings.clock.now;
      e := Event.Unregister(aor, id, wildcard, get, _ => get, 0, get);
      if found.None? {
        return NoBindings, e;
      }
      var bs := found.value;
      if id !in bs {
        return NoSuchBinding, e;
      }
      bs := bs - {id};
      assert bs == Found(was, aor, get) - {id};
      if |bs| == 0 {
        assert bs == map[];
        var _ := bindings.Delete(aor);
      } else {
        ghost var ttls: BindingId -> int;
        var maxTtl;
        maxTtl, ttls := Put(aor, bs, 0);
        e := Event.Unregister(aor, id, wildcard, get, ttls, maxTtl, bindings.clock.now);
      }
      r := Removed;
    }

    /** The bindings found alive, each being looked at once; their order is that of `ids`. */
    method Filter(bs: Bindings) returns (r: seq<Binding>, ghost ids: seq<BindingId>, ghost at: BindingId -> int)
      modifies bindings.clock
      ensures old(bindings.clock.now) <= bindings.clock.now
      ensures TtlStore.ScansWithin(at, old(bindings.clock.now), bindings.clock.now)
      ensures Lists(r, ids, Alive(bs, at))
    {
      var todo := bs.Keys;
      ghost var start := bindings.clock.now;
      at := _ => start;
      r, ids := [], [];
      while todo != {}
        invariant todo <= bs.Keys && start == old(bindings.clock.now) <= bindings.clock.now
        invariant TtlStore.ScansWithin(at, start, bindings.clock.now)
        invariant Lists(r, ids, Alive(bs - todo, at))
        decreases |todo|
      {
        SomeElement(todo);
        var id :| id in todo;
        var now := bindings.clock.Now();
        AliveOne(bs, todo, at, id, now);
        if !Expired(bs[id], now) {
          ListOne(r, ids, Alive(bs - todo, at), id, bs[id]);
          r, ids := r + [bs[id]], ids + [id];
        }
        at := TtlStore.Revised(at, id, now);
        todo := todo - {id};
      }
      assert bs - {} == bs;
    }

    method Lookup(aor: Aor) returns (r: seq<Binding>, ghost ids: seq<BindingId>, ghost get: int,
                  ghost at: BindingId -> int)
      modifies bindings.clock
      ensures old(bindings.clock.now) <= get && TtlStore.ScansWithin(at, get, bindings.clock.now)
      ensures Lists(r, ids, Registrar.Lookup(bindings.items, aor, get, at))
      ensures forall id :: id in ids <==>
                Holds(bindings.items, aor, id, get) && at(id) <= bindings.items[aor].value[id].expiresAt
      ensures forall i :: 0 <= i < |r| ==> |r| == |ids| && ids[i] in bindings.items[aor].value
                                           && r[i] == bindings.items[aor].value[ids[i]]
    {
      var found := bindings.Get(aor);
      get := bindings.clock.now;
      if found.None? {
        ghost var now := get;
        return [], [], get, _ => now;
      }
      r, ids, at := Filter(found.value);
    }
  }

  // ----- One turn of a loop -----

  lemma StaleEvent(cfg: Config, items: Items, b: Binding, now: int, get: int)
    requires b.aor != "" && b.contact != "" && Requested(cfg, b) >= cfg.minExpires && now <= get
    requires var s, bs := Stamped(cfg, b, now), Found(items, b.aor, get);
             s.id in bs && !ValidCSeq(bs[s.id], b.callId, b.cseq)
    ensures var e := Event.Register(b, now, get, _ => get, 0, get);
            Enabled(cfg, items, e) && Apply(cfg, items, e) == items
    ensures RegisterOutcome(cfg, items, b, now, get) == StaleCSeq
  {
  }

  lemma AcceptedEvent(cfg: Config, items: Items, b: Binding, now: int, get: int, ttls: BindingId -> int, m: int,
                      end: int)
    requires b.aor != "" && b.contact != "" && Requested(cfg, b) >= cfg.minExpires
    requires now <= get <= end && TtlStore.ScansWithin(ttls, get, end)
    requires var s, bs := Stamped(cfg, b, now), Found(items, b.aor, get);
             && (s.id in bs ==> ValidCSeq(bs[s.id], b.callId, b.cseq))
             && IsMaxTtl(bs[s.id := s], ttls, s.expires * SECOND, m)
    ensures var s, bs := Stamped(cfg, b, now), Found(items, b.aor, get);
            var e := Event.Register(b, now, get, ttls, m, end);
            && Enabled(cfg, items, e)
            && Apply(cfg, items, e) == items[b.aor := TtlStore.Entry(bs[s.id := s], end + m)]
            && RegisterOutcome(cfg, items, b, now, get) == Accepted(s)
  {
  }

  function Alive(bs: Bindings, at: BindingId -> int): Bindings {
    map id | id in bs && !Expired(bs[id], at(id)) :: bs[id]
  }

  lemma AliveOne(bs: Bindings, todo: set<BindingId>, at: BindingId -> int, id: BindingId, now: int)
    requires id in todo && id in bs
    ensures var before, at' := Alive(bs - todo, at), TtlStore.Revised(at, id, now);
            && id !in before && Alive(bs - todo, at') == before
            && Alive(bs - (todo - {id}), at') == if Expired(bs[id], now) then before else before[id := bs[id]]
  {
  }

  lemma ListOne(r: seq<Binding>, ids: seq<BindingId>, m: Bindings, id: BindingId, b: Binding)
    requires Lists(r, ids, m) && id !in m
    ensures Lists(r + [b], ids + [id], m[id := b])
  {
  }

  lemma LaterScan(at: BindingId -> int, from: int, to: int, later: int)
    requires TtlStore.ScansWithin(at, from, to) && to <= later
    ensures TtlStore.ScansWithin(at, from, later)
  {
  }

  /** It bounds the time every binding has left, and is that of one of them or the least it may be. */
  lemma MaxTtlBounds(bs: Bindings, at: BindingId -> int, least: int, m: int)
    requires IsMaxTtl(bs, at, least, m)
    ensures least <= m && forall id :: id in bs ==> bs[id].expiresAt - at(id) <= m
    ensures m == least || exists id :: && id in bs
                                       && (m == bs[id].expiresAt - at(id) || (m == 0 && bs[id].expiresAt < at(id)))
  {
    forall id | id in bs ensures bs[id].expiresAt - at(id) <= m {
      assert Ttl(bs[id], at(id)) <= m;
    }
    if m != least {
      var id :| id in bs && Ttl(bs[id], at(id)) == m;
      assert m == bs[id].expiresAt - at(id) || (m == 0 && bs[id].expiresAt < at(id));
    }
  }

  lemma MaxOne(bs: Bindings, todo: set<BindingId>, at: BindingId -> int, least: int, m: int, id: BindingId, now: int)
    requires IsMaxTtl(bs - todo, at, least, m) && id in todo && id in bs
    ensures var ttl := Ttl(bs[id], now);
            IsMaxTtl(bs - (todo - {id}), TtlStore.Revised(at, id, now), least, if ttl > m then ttl else m)
  {
    var rest, at' := bs - (todo - {id}), TtlStore.Revised(at, id, now);
    assert rest == (bs - todo)[id := bs[id]];
    assert Ttl(rest[id], at'(id)) == Ttl(bs[id], now);
    if m != least && Ttl(bs[id], now) <= m {
      var k :| k in bs - todo && Ttl((bs - todo)[k], at(k)) == m;
      assert k != id && Ttl(rest[k], at'(k)) == m;
    }
  }
}
