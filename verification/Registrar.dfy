/** The location store: bindings that expire inside entries that expire, against a flat ledger. */
module Registrar {
  import TtlStore

  type Aor = string
  type BindingId = string

  const SECOND: int := 1_000_000_000

  datatype Binding = Binding(aor: Aor, id: BindingId, contact: string, instance: string,
                             expires: int, expiresAt: int, registeredAt: int, callId: string, cseq: nat)

  type Bindings = map<BindingId, Binding>
  type Items = map<Aor, TtlStore.Entry<Bindings>>

  /** `idOf` derives an identifier from a contact and an instance. */
  datatype Config = Config(defaultExpires: int, minExpires: int, maxExpires: int, idOf: (string, string) -> BindingId)

  datatype Registered = Accepted(binding: Binding) | EmptyAor | EmptyContact | TooBrief | StaleCSeq
  datatype Unregistered = Removed | NoBindings | NoSuchBinding

  predicate Expired(b: Binding, now: int) {
    now > b.expiresAt
  }

  function Ttl(b: Binding, now: int): int {
    if b.expiresAt - now < 0 then 0 else b.expiresAt - now
  }

  predicate ValidCSeq(b: Binding, callId: string, cseq: nat) {
    b.callId != callId || cseq > b.cseq
  }

  function Requested(cfg: Config, b: Binding): int {
    if b.expires <= 0 then cfg.defaultExpires else b.expires
  }

  /** The binding as stored: interval granted, identifier filled in, times set. */
  function Stamped(cfg: Config, b: Binding, now: int): (s: Binding)
    ensures (s.aor, s.contact, s.instance, s.callId, s.cseq) == (b.aor, b.contact, b.instance, b.callId, b.cseq)
    ensures if b.id == "" then s.id == cfg.idOf(b.contact, b.instance) else s.id == b.id
    ensures 0 < b.expires <= cfg.maxExpires ==> s.expires == b.expires
    ensures b.expires <= 0 && cfg.defaultExpires <= cfg.maxExpires ==> s.expires == cfg.defaultExpires
    ensures b.expires > 0 && b.expires > cfg.maxExpires ==> s.expires == cfg.maxExpires
    ensures s.expires <= cfg.maxExpires && s.registeredAt == now && s.expiresAt - now == s.expires * SECOND
  {
    var asked := Requested(cfg, b);
    var granted := if asked > cfg.maxExpires then cfg.maxExpires else asked;
    var id := if b.id == "" then cfg.idOf(b.contact, b.instance) else b.id;
    b.(expires := granted, id := id, expiresAt := now + granted * SECOND, registeredAt := now)
  }

  // ----- The two-level store -----

  /** `at(id)` is the instant at which binding `id` was asked for its remaining time. */
  ghost predicate IsMaxTtl(bs: Bindings, at: BindingId -> int, least: int, m: int) {
    && least <= m
    && (forall id :: id in bs ==> Ttl(bs[id], at(id)) <= m)
    && (m == least || exists id :: id in bs && Ttl(bs[id], at(id)) == m)
  }

  /** The bindings an AOR is found to have. */
  function Found(items: Items, aor: Aor, now: int): Bindings {
    if TtlStore.Visible(items, aor, now) then items[aor].value else map[]
  }

  /** An operation with the clock readings it makes, in the order it makes them. */
  datatype Event =
    | Register(binding: Binding, start: int, get: int, ttls: BindingId -> int, maxTtl: int, end: int)
    | Unregister(aor: Aor, id: BindingId, wildcard: bool, get: int, ttls: BindingId -> int, maxTtl: int, end: int)
    | Cleanup(start: int, scan: Aor -> int, end: int)

  function Start(e: Event): int {
    if e.Unregister? then e.get else e.start
  }

  function RegisterOutcome(cfg: Config, items: Items, b: Binding, start: int, get: int): Registered {
    if b.aor == "" then EmptyAor
    else if b.contact == "" then EmptyContact
    else if Requested(cfg, b) < cfg.minExpires then TooBrief
    else
      var s := Stamped(cfg, b, start);
      var bs := Found(items, b.aor, get);
      if s.id in bs && !ValidCSeq(bs[s.id], b.callId, b.cseq) then StaleCSeq else Accepted(s)
  }

  function UnregisterOutcome(items: Items, aor: Aor, id: BindingId, wildcard: bool, get: int): Unregistered {
    if wildcard then Removed
    else if !TtlStore.Visible(items, aor, get) then NoBindings
    else if id !in items[aor].value then NoSuchBinding
    else Removed
  }

  ghost predicate Enabled(cfg: Config, items: Items, e: Event) {
    match e
    case Register(b, start, get, ttls, m, end) =>
      && start <= get <= end
      && TtlStore.ScansWithin(ttls, get, end)
      && (RegisterOutcome(cfg, items, b, start, get).Accepted? ==>
            var s := Stamped(cfg, b, start);
            IsMaxTtl(Found(items, b.aor, get)[s.id := s], ttls, s.expires * SECOND, m))
    case Unregister(aor, id, wildcard, get, ttls, m, end) =>
      && get <= end
      && TtlStore.ScansWithin(ttls, get, end)
      && (!wildcard && UnregisterOutcome(items, aor, id, wildcard, get).Removed? ==>
            IsMaxTtl(Found(items, aor, get) - {id}, ttls, 0, m))
    case Cleanup(start, scan, end) => start <= end && TtlStore.ScansWithin(scan, start, end)
  }

  function Apply(cfg: Config, items: Items, e: Event): Items {
    match e
    case Register(b, start, get, _, m, end) =>
      var r := RegisterOutcome(cfg, items, b, start, get);
      if !r.Accepted? then items
      else items[b.aor := TtlStore.Entry(Found(items, b.aor, get)[r.binding.id := r.binding], end + m)]
    case Unregister(aor, id, wildcard, get, _, m, end) =>
      if !UnregisterOutcome(items, aor, id, wildcard, get).Removed? then items
      else if wildcard || items[aor].value - {id} == map[] then items - {aor}
      else items[aor := TtlStore.Entry(items[aor].value - {id}, end + m)]
    case Cleanup(_, scan, _) => TtlStore.Unexpired(items, scan)
  }

  /** The bindings a caller of Lookup gets: the entry is read at `get`, binding `id` at `at(id)`. */
  function Lookup(items: Items, aor: Aor, get: int, at: BindingId -> int): Bindings {
    var bs := Found(items, aor, get);
    map id | id in bs && !Expired(bs[id], at(id)) :: bs[id]
  }

  // ----- The flat ledger -----

  /** The latest accepted binding under each AOR and identifier that has not been unregistered. */
  type Ledger = map<(Aor, BindingId), Binding>

  function Record(cfg: Config, ledger: Ledger, items: Items, e: Event): Ledger {
    match e
    case Register(b, start, get, _, _, _) =>
      var r := RegisterOutcome(cfg, items, b, start, get);
      if r.Accepted? then ledger[(b.aor, r.binding.id) := r.binding] else ledger
    case Unregister(aor, id, wildcard, get, _, _, _) =>
      if wildcard then map k | k in ledger && k.0 != aor :: ledger[k]
      else if UnregisterOutcome(items, aor, id, wildcard, get).Removed? then ledger - {(aor, id)}
      else ledger
    case Cleanup(_, _, _) => ledger
  }

  /** The ledger's answer to Lookup. */
  function Unexpired(ledger: Ledger, aor: Aor, at: BindingId -> int): Bindings {
    map k | k in ledger && k.0 == aor && !Expired(ledger[k], at(k.1)) :: k.1 := ledger[k]
  }

  lemma UnexpiredAt(ledger: Ledger, aor: Aor, at: BindingId -> int, id: BindingId)
    ensures id in Unexpired(ledger, aor, at) <==> (aor, id) in ledger && !Expired(ledger[(aor, id)], at(id))
    ensures id in Unexpired(ledger, aor, at) ==> Unexpired(ledger, aor, at)[id] == ledger[(aor, id)]
  {
  }

  // ----- Refinement -----

  /** Everything stored is in the ledger, everything in the ledger that is alive is stored, and no
      binding outlives the entry that holds it. */
  ghost predicate Refines(items: Items, ledger: Ledger, t: int) {
    && (forall aor, id :: aor in items && id in items[aor].value ==>
          && (aor, id) in ledger && ledger[(aor, id)] == items[aor].value[id]
          && items[aor].value[id].expiresAt <= items[aor].expiresAt)
    && (forall aor, id :: (aor, id) in ledger && !Expired(ledger[(aor, id)], t) ==>
          aor in items && id in items[aor].value)
  }

  /** Under a binding that is alive lies an entry that is visible. */
  lemma LiveBindingIsFound(items: Items, ledger: Ledger, t: int, aor: Aor, id: BindingId, now: int)
    requires Refines(items, ledger, t) && t <= now && (aor, id) in ledger && !Expired(ledger[(aor, id)], now)
    ensures id in Found(items, aor, now) && Found(items, aor, now)[id] == ledger[(aor, id)]
  {
    assert aor in items && id in items[aor].value;
  }

  lemma RegisterRefines(cfg: Config, items: Items, ledger: Ledger, t: int, e: Event)
    requires Refines(items, ledger, t) && t <= Start(e) && e.Register? && Enabled(cfg, items, e)
    ensures Refines(Apply(cfg, items, e), Record(cfg, ledger, items, e), e.end)
  {
    var r := RegisterOutcome(cfg, items, e.binding, e.start, e.get);
    if r.Accepted? {
      var aor, s := e.binding.aor, r.binding;
      var bs := Found(items, aor, e.get)[s.id := s];
      var items', ledger' := Apply(cfg, items, e), Record(cfg, ledger, items, e);
      assert items' == items[aor := TtlStore.Entry(bs, e.end + e.maxTtl)];
      forall id | id in bs
        ensures (aor, id) in ledger' && ledger'[(aor, id)] == bs[id] && bs[id].expiresAt <= e.end + e.maxTtl
      {
        assert Ttl(bs[id], e.ttls(id)) <= e.maxTtl;
      }
      forall a, id | (a, id) in ledger' && !Expired(ledger'[(a, id)], e.end)
        ensures a in items' && id in items'[a].value
      {
        if (a, id) != (aor, s.id) {
          LiveBindingIsFound(items, ledger, t, a, id, e.get);
        }
      }
    }
  }

  lemma UnregisterRefines(cfg: Config, items: Items, ledger: Ledger, t: int, e: Event)
    requires Refines(items, ledger, t) && t <= Start(e) && e.Unregister? && Enabled(cfg, items, e)
    ensures Refines(Apply(cfg, items, e), Record(cfg, ledger, items, e), e.end)
  {
    if !e.wildcard && UnregisterOutcome(items, e.aor, e.id, e.wildcard, e.get).Removed? {
      var bs := items[e.aor].value - {e.id};
      if bs == map[] {
        assert forall id :: id in items[e.aor].value ==> id == e.id by {
          forall id | id in items[e.aor].value ensures id == e.id {
            assert id in bs || id == e.id;
          }
        }
      } else {
        forall id | id in bs ensures bs[id].expiresAt <= e.end + e.maxTtl {
          assert Ttl(bs[id], e.ttls(id)) <= e.maxTtl;
        }
      }
    }
  }

  lemma CleanupRefines(cfg: Config, items: Items, ledger: Ledger, t: int, e: Event)
    requires Refines(items, ledger, t) && t <= Start(e) && e.Cleanup? && Enabled(cfg, items, e)
    ensures Refines(Apply(cfg, items, e), Record(cfg, ledger, items, e), e.end)
  {
  }

  // ----- Runs -----

  ghost predicate Feasible(cfg: Config, items: Items, t: int, run: seq<Event>)
    decreases |run|
  {
    run == [] ||
    (t <= Start(run[0]) && Enabled(cfg, items, run[0]) &&
     Feasible(cfg, Apply(cfg, items, run[0]), run[0].end, run[1..]))
  }

  function EndOf(t: int, run: seq<Event>): int {
    if run == [] then t else run[|run| - 1].end
  }

  function After(cfg: Config, items: Items, run: seq<Event>): Items
    decreases |run|
  {
    if run == [] then items else After(cfg, Apply(cfg, items, run[0]), run[1..])
  }

  function LedgerAfter(cfg: Config, ledger: Ledger, items: Items, run: seq<Event>): Ledger
    decreases |run|
  {
    if run == [] then ledger
    else LedgerAfter(cfg, Record(cfg, ledger, items, run[0]), Apply(cfg, items, run[0]), run[1..])
  }

  lemma EventRefines(cfg: Config, items: Items, ledger: Ledger, t: int, e: Event)
    requires Refines(items, ledger, t) && t <= Start(e) && Enabled(cfg, items, e)
    ensures Refines(Apply(cfg, items, e), Record(cfg, ledger, items, e), e.end)
  {
    match e {
      case Register(_, _, _, _, _, _) => RegisterRefines(cfg, items, ledger, t, e);
      case Unregister(_, _, _, _, _, _, _) => UnregisterRefines(cfg, items, ledger, t, e);
      case Cleanup(_, _, _) => CleanupRefines(cfg, items, ledger, t, e);
    }
  }

  lemma {:induction false} RunRefines(cfg: Config, items: Items, ledger: Ledger, t: int, run: seq<Event>)
    requires Refines(items, ledger, t) && Feasible(cfg, items, t, run)
    ensures Refines(After(cfg, items, run), LedgerAfter(cfg, ledger, items, run), EndOf(t, run))
    decreases |run|
  {
    if run != [] {
      var e := run[0];
      EventRefines(cfg, items, ledger, t, e);
      RunRefines(cfg, Apply(cfg, items, e), Record(cfg, ledger, items, e), e.end, run[1..]);
      assert EndOf(e.end, run[1..]) == EndOf(t, run);
    }
  }

  lemma RefinedLookupIsExact(items: Items, ledger: Ledger, t: int, aor: Aor, get: int, at: BindingId -> int)
    requires Refines(items, ledger, t) && t <= get && forall id :: get <= at(id)
    ensures Lookup(items, aor, get, at) == Unexpired(ledger, aor, at)
  {
    var answer, expected := Lookup(items, aor, get, at), Unexpired(ledger, aor, at);
    forall id | id in expected ensures id in answer && answer[id] == expected[id] {
      assert !Expired(ledger[(aor, id)], at(id));
      LiveBindingIsFound(items, ledger, t, aor, id, get);
    }
    forall id | id in answer ensures id in expected {
      assert (aor, id) in ledger;
    }
  }

  /** After any run from the empty store, Lookup returns exactly the ledger's unexpired bindings. */
  lemma LookupIsTheLedger(cfg: Config, t: int, run: seq<Event>, aor: Aor, get: int, at: BindingId -> int)
    requires Feasible(cfg, map[], t, run) && EndOf(t, run) <= get && forall id :: get <= at(id)
    ensures Lookup(After(cfg, map[], run), aor, get, at) == Unexpired(LedgerAfter(cfg, map[], map[], run), aor, at)
  {
    RunRefines(cfg, map[], map[], t, run);
    RefinedLookupIsExact(After(cfg, map[], run), LedgerAfter(cfg, map[], map[], run), EndOf(t, run), aor, get, at);
  }

  // ----- What the answers say, in plain terms -----

  /** The entry of the AOR can be seen at the instant and has the binding. */
  predicate Holds(items: Items, aor: Aor, id: BindingId, now: int) {
    aor in items && now <= items[aor].expiresAt && id in items[aor].value
  }

  predicate IsTimed(b: Binding) {
    b.expiresAt == b.registeredAt + b.expires * SECOND
  }

  lemma {:induction false} LedgerIsTimed(cfg: Config, ledger: Ledger, items: Items, run: seq<Event>)
    requires forall k :: k in ledger ==> IsTimed(ledger[k])
    ensures forall k :: k in LedgerAfter(cfg, ledger, items, run) ==> IsTimed(LedgerAfter(cfg, ledger, items, run)[k])
    decreases |run|
  {
    if run != [] {
      LedgerIsTimed(cfg, Record(cfg, ledger, items, run[0]), Apply(cfg, items, run[0]), run[1..]);
    }
  }

  /** After any run, Lookup returns a binding if and only if it is in the ledger and no more time has gone
      by since it was registered than it was granted; and it returns it as it was registered. */
  lemma LookupIsTimely(cfg: Config, t: int, run: seq<Event>, aor: Aor, get: int, at: BindingId -> int, id: BindingId)
    requires Feasible(cfg, map[], t, run) && EndOf(t, run) <= get && forall id :: get <= at(id)
    ensures var ledger := LedgerAfter(cfg, map[], map[], run);
            var answer := Lookup(After(cfg, map[], run), aor, get, at);
            && (id in answer <==>
                  && (aor, id) in ledger
                  && at(id) <= ledger[(aor, id)].registeredAt + ledger[(aor, id)].expires * SECOND)
            && (id in answer ==> answer[id] == ledger[(aor, id)])
  {
    LookupIsTheLedger(cfg, t, run, aor, get, at);
    LedgerIsTimed(cfg, map[], map[], run);
    UnexpiredAt(LedgerAfter(cfg, map[], map[], run), aor, at, id);
  }

  /** A registration is refused for exactly one of four reasons, in this order, and otherwise accepted. */
  lemma RegisterIsExact(cfg: Config, items: Items, b: Binding, start: int, get: int)
    ensures var id := if b.id == "" then cfg.idOf(b.contact, b.instance) else b.id;
            var asked := if b.expires <= 0 then cfg.defaultExpires else b.expires;
            RegisterOutcome(cfg, items, b, start, get)
            == if b.aor == "" then EmptyAor
               else if b.contact == "" then EmptyContact
               else if asked < cfg.minExpires then TooBrief
               else if && Holds(items, b.aor, id, get) && items[b.aor].value[id].callId == b.callId
                       && b.cseq <= items[b.aor].value[id].cseq then StaleCSeq
               else Accepted(Stamped(cfg, b, start))
  {
  }

  /** Unregistering fails exactly if, without the wildcard, the AOR or the binding is not to be seen. */
  lemma UnregisterIsExact(items: Items, aor: Aor, id: BindingId, wildcard: bool, get: int)
    ensures UnregisterOutcome(items, aor, id, wildcard, get)
            == if wildcard || Holds(items, aor, id, get) then Removed
               else if aor in items && get <= items[aor].expiresAt then NoSuchBinding
               else NoBindings
  {
  }

  /** No run leaves an AOR with an entry and no binding: the entry goes with the last one. */
  lemma {:induction false} EntriesAreNeverEmpty(cfg: Config, items: Items, t: int, run: seq<Event>)
    requires Feasible(cfg, items, t, run) && forall aor :: aor in items ==> items[aor].value != map[]
    ensures forall aor :: aor in After(cfg, items, run) ==> After(cfg, items, run)[aor].value != map[]
    decreases |run|
  {
    if run != [] {
      EntriesAreNeverEmpty(cfg, Apply(cfg, items, run[0]), run[0].end, run[1..]);
    }
  }

  /** A sweep removes exactly the entries that have expired when it looks at them. */
  lemma SweepIsExact(cfg: Config, items: Items, e: Event)
    requires e.Cleanup?
    ensures forall aor :: aor in Apply(cfg, items, e) <==> aor in items && e.scan(aor) <= items[aor].expiresAt
    ensures forall aor :: aor in Apply(cfg, items, e) ==> Apply(cfg, items, e)[aor] == items[aor]
  {
  }

  /** An accepted registration is found by Lookup, as it was granted, until its time is up. */
  lemma RegisteredIsFound(cfg: Config, t: int, run: seq<Event>, e: Event, get: int, at: BindingId -> int)
    requires e.Register? && Feasible(cfg, map[], t, run + [e]) && e.end <= get && forall id :: get <= at(id)
    requires RegisterOutcome(cfg, After(cfg, map[], run), e.binding, e.start, e.get).Accepted?
    ensures var w := RegisterOutcome(cfg, After(cfg, map[], run), e.binding, e.start, e.get).binding;
            var answer := Lookup(Apply(cfg, After(cfg, map[], run), e), w.aor, get, at);
            && (w.id in answer <==> at(w.id) <= w.registeredAt + w.expires * SECOND)
            && (w.id in answer ==> answer[w.id] == w)
            && e.start == w.registeredAt && w.contact == e.binding.contact && w.aor == e.binding.aor
  {
    var items, ledger := After(cfg, map[], run), LedgerAfter(cfg, map[], map[], run);
    SplitRun(cfg, map[], map[], t, run, e);
    RunRefines(cfg, map[], map[], t, run);
    RegisterRefines(cfg, items, ledger, EndOf(t, run), e);
    var w := RegisterOutcome(cfg, items, e.binding, e.start, e.get).binding;
    RefinedLookupIsExact(Apply(cfg, items, e), Record(cfg, ledger, items, e), e.end, w.aor, get, at);
    UnexpiredAt(Record(cfg, ledger, items, e), w.aor, at, w.id);
  }

  // ----- What the ledger can hold -----

  predicate Granted(cfg: Config, k: (Aor, BindingId), b: Binding) {
    && k == (b.aor, b.id) && b.aor != "" && b.contact != ""
    && cfg.minExpires <= b.expires <= cfg.maxExpires
    && b.expiresAt == b.registeredAt + b.expires * SECOND
  }

  lemma {:induction false} LedgerIsGranted(cfg: Config, ledger: Ledger, items: Items, run: seq<Event>)
    requires cfg.minExpires <= cfg.maxExpires
    requires forall k :: k in ledger ==> Granted(cfg, k, ledger[k])
    ensures forall k :: k in LedgerAfter(cfg, ledger, items, run) ==>
              Granted(cfg, k, LedgerAfter(cfg, ledger, items, run)[k])
    decreases |run|
  {
    if run != [] {
      LedgerIsGranted(cfg, Record(cfg, ledger, items, run[0]), Apply(cfg, items, run[0]), run[1..]);
    }
  }

  /** A binding that Lookup returns was granted an interval within the limits, and was registered no
      longer ago than that. */
  lemma LookupIsFresh(cfg: Config, t: int, run: seq<Event>, aor: Aor, get: int, at: BindingId -> int, id: BindingId)
    requires Feasible(cfg, map[], t, run) && EndOf(t, run) <= get && forall id :: get <= at(id)
    requires cfg.minExpires <= cfg.maxExpires && id in Lookup(After(cfg, map[], run), aor, get, at)
    ensures var b := Lookup(After(cfg, map[], run), aor, get, at)[id];
            && b.aor == aor && b.id == id && b.contact != ""
            && cfg.minExpires <= b.expires <= cfg.maxExpires
            && at(id) - b.registeredAt <= b.expires * SECOND
  {
    LookupIsTheLedger(cfg, t, run, aor, get, at);
    LedgerIsGranted(cfg, map[], map[], run);
    var ledger := LedgerAfter(cfg, map[], map[], run);
    assert Granted(cfg, (aor, id), ledger[(aor, id)]);
  }

  // ----- CSeq -----

  /** A registration is refused over its CSeq only if the ledger holds a binding of the same Call-ID
      with a CSeq as high, and is refused whenever such a binding is alive. */
  lemma StaleCSeqMeansReplay(cfg: Config, t: int, run: seq<Event>, b: Binding, start: int, get: int)
    requires Feasible(cfg, map[], t, run) && EndOf(t, run) <= start <= get
    requires b.aor != "" && b.contact != "" && Requested(cfg, b) >= cfg.minExpires
    ensures var ledger := LedgerAfter(cfg, map[], map[], run);
            var k := (b.aor, Stamped(cfg, b, start).id);
            var r := RegisterOutcome(cfg, After(cfg, map[], run), b, start, get);
            && (r.StaleCSeq? ==> k in ledger && ledger[k].callId == b.callId && b.cseq <= ledger[k].cseq)
            && (k in ledger && !Expired(ledger[k], get) && ledger[k].callId == b.callId && b.cseq <= ledger[k].cseq
                ==> r.StaleCSeq?)
  {
    RunRefines(cfg, map[], map[], t, run);
    var ledger := LedgerAfter(cfg, map[], map[], run);
    var k := (b.aor, Stamped(cfg, b, start).id);
    if k in ledger && !Expired(ledger[k], get) {
      LiveBindingIsFound(After(cfg, map[], run), ledger, EndOf(t, run), k.0, k.1, get);
    }
  }

  /** Whoever replaces a live binding under its own Call-ID brings a higher CSeq. */
  lemma ReplacementRaisesCSeq(cfg: Config, t: int, run: seq<Event>, e: Event)
    requires e.Register? && Feasible(cfg, map[], t, run + [e])
    ensures Feasible(cfg, map[], t, run)
    ensures var before := LedgerAfter(cfg, map[], map[], run);
            var after := LedgerAfter(cfg, map[], map[], run + [e]);
            forall k :: k in before && k in after && before[k] != after[k] && !Expired(before[k], e.get)
                        && before[k].callId == after[k].callId ==>
                          before[k].cseq < after[k].cseq
  {
    SplitRun(cfg, map[], map[], t, run, e);
    RunRefines(cfg, map[], map[], t, run);
    var items, before := After(cfg, map[], run), LedgerAfter(cfg, map[], map[], run);
    var after := LedgerAfter(cfg, map[], map[], run + [e]);
    forall k | k in before && k in after && before[k] != after[k] && !Expired(before[k], e.get)
               && before[k].callId == after[k].callId
      ensures before[k].cseq < after[k].cseq
    {
      LiveBindingIsFound(items, before, EndOf(t, run), k.0, k.1, e.get);
    }
  }

  lemma {:induction false} SplitRun(cfg: Config, items: Items, ledger: Ledger, t: int, run: seq<Event>, e: Event)
    requires Feasible(cfg, items, t, run + [e])
    ensures Feasible(cfg, items, t, run) && EndOf(t, run) <= Start(e) && Enabled(cfg, After(cfg, items, run), e)
    ensures LedgerAfter(cfg, ledger, items, run + [e])
            == Record(cfg, LedgerAfter(cfg, ledger, items, run), After(cfg, items, run), e)
    decreases |run|
  {
    if run == [] {
      assert (run + [e])[0] == e && (run + [e])[1..] == [];
    } else {
      assert (run + [e])[0] == run[0] && (run + [e])[1..] == run[1..] + [e];
      SplitRun(cfg, Apply(cfg, items, run[0]), Record(cfg, ledger, items, run[0]), run[0].end, run[1..], e);
    }
  }

  /** An expired binding does not always give way: while another device keeps the AOR's entry, a
      registration is still held to the CSeq of a binding that has lapsed. */
  lemma LapsedBindingStillRefuses()
    returns (cfg: Config, run: seq<Event>, b: Binding, now: int)
    ensures Feasible(cfg, map[], 0, run) && EndOf(0, run) <= now
    ensures var ledger := LedgerAfter(cfg, map[], map[], run);
            var k := (b.aor, b.id);
            k in ledger && Expired(ledger[k], now)
    ensures RegisterOutcome(cfg, After(cfg, map[], run), b, now, now).StaleCSeq?
  {
    cfg := Config(60, 30, 120, (c, i) => c);
    b := Binding("alice", "desk", "c", "", 30, 0, 0, "call", 1);
    var phone := Binding("alice", "phone", "d", "", 120, 0, 0, "other", 1);
    var first := Register(b, 0, 0, _ => 0, 30 * SECOND, 0);
    var second := Register(phone, 0, 0, _ => 0, 120 * SECOND, 0);
    now := 60 * SECOND;
    run := [first, second];
    var sb, sp := Stamped(cfg, b, 0), Stamped(cfg, phone, 0);
    var one: Items := map["alice" := TtlStore.Entry(map["desk" := sb], 30 * SECOND)];
    var two: Items := map["alice" := TtlStore.Entry(map["desk" := sb, "phone" := sp], 120 * SECOND)];
    assert Enabled(cfg, map[], first) && Apply(cfg, map[], first) == one;
    assert Enabled(cfg, one, second) && Apply(cfg, one, second) == two by {
      assert Found(one, "alice", 0)["phone" := sp] == map["desk" := sb, "phone" := sp];
    }
    TwoEvents(cfg, first, second);
  }

  lemma TwoEvents(cfg: Config, first: Event, second: Event)
    requires Enabled(cfg, map[], first) && Enabled(cfg, Apply(cfg, map[], first), second)
    requires 0 <= Start(first) && first.end <= Start(second)
    ensures var run, one := [first, second], Apply(cfg, map[], first);
            && Feasible(cfg, map[], 0, run) && EndOf(0, run) == second.end
            && After(cfg, map[], run) == Apply(cfg, one, second)
            && LedgerAfter(cfg, map[], map[], run) == Record(cfg, Record(cfg, map[], map[], first), one, second)
  {
    var run, one := [first, second], Apply(cfg, map[], first);
    assert run[1..] == [second] && run[1..][1..] == [];
    var noted, two := Record(cfg, map[], map[], first), Apply(cfg, one, second);
    assert After(cfg, one, run[1..]) == After(cfg, two, []);
    assert LedgerAfter(cfg, noted, one, run[1..]) == LedgerAfter(cfg, Record(cfg, noted, one, second), two, []);
  }

  // ----- Unregister -----

  /** What the ledger would answer once `e` has been carried out. */
  function LeftAfter(items: Items, ledger: Ledger, e: Event, at: BindingId -> int): Bindings
    requires e.Unregister?
  {
    var r := UnregisterOutcome(items, e.aor, e.id, e.wildcard, e.get);
    if !r.Removed? then Unexpired(ledger, e.aor, at)
    else if e.wildcard then map[]
    else Unexpired(ledger, e.aor, at) - {e.id}
  }

  lemma RecordedUnregister(cfg: Config, items: Items, ledger: Ledger, e: Event, at: BindingId -> int)
    requires e.Unregister?
    ensures Unexpired(Record(cfg, ledger, items, e), e.aor, at) == LeftAfter(items, ledger, e, at)
  {
    var ledger' := Record(cfg, ledger, items, e);
    var left, expected := Unexpired(ledger', e.aor, at), LeftAfter(items, ledger, e, at);
    forall id ensures (id in left <==> id in expected) && (id in left ==> left[id] == expected[id]) {
      UnexpiredAt(ledger, e.aor, at, id);
      UnexpiredAt(ledger', e.aor, at, id);
    }
  }

  /** Unregister fails only if the binding is not alive; if it succeeds, later Lookups miss the one
      binding, or with the wildcard all of them, and still find every other one. */
  lemma UnregisterIsEffective(cfg: Config, t: int, run: seq<Event>, e: Event, get: int, at: BindingId -> int)
    requires e.Unregister? && Feasible(cfg, map[], t, run + [e]) && e.end <= get && forall k :: get <= at(k)
    ensures var items, ledger := After(cfg, map[], run), LedgerAfter(cfg, map[], map[], run);
            && Lookup(Apply(cfg, items, e), e.aor, get, at) == LeftAfter(items, ledger, e, at)
            && ((e.aor, e.id) in ledger && !Expired(ledger[(e.aor, e.id)], e.get) ==>
                  UnregisterOutcome(items, e.aor, e.id, e.wildcard, e.get).Removed?)
  {
    var items, ledger := After(cfg, map[], run), LedgerAfter(cfg, map[], map[], run);
    SplitRun(cfg, map[], map[], t, run, e);
    RunRefines(cfg, map[], map[], t, run);
    if (e.aor, e.id) in ledger && !Expired(ledger[(e.aor, e.id)], e.get) {
      LiveBindingIsFound(items, ledger, EndOf(t, run), e.aor, e.id, e.get);
    }
    UnregisterRefines(cfg, items, ledger, EndOf(t, run), e);
    RefinedLookupIsExact(Apply(cfg, items, e), Record(cfg, ledger, items, e), e.end, e.aor, get, at);
    RecordedUnregister(cfg, items, ledger, e, at);
  }
}
