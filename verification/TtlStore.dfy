/** The expiring map: a periodic sweep deletes expired entries, and no reader should notice. */
module TtlStore {
  import opened CallStates
  import opened Clocks

  datatype Entry<V> = Entry(value: V, expiresAt: int)

  predicate Expired<V>(e: Entry<V>, now: int) {
    now > e.expiresAt
  }

  type Items<K, V> = map<K, Entry<V>>

  /** What a scan that looks at key `k` at the instant `at(k)` keeps. */
  function Unexpired<K(==), V>(items: Items<K, V>, at: K -> int): Items<K, V> {
    map k | k in items && !Expired(items[k], at(k)) :: items[k]
  }

  function Values<K(==), V>(items: Items<K, V>): map<K, V> {
    map k | k in items :: items[k].value
  }

  // ----- Operations, with every clock reading they make -----

  datatype Op<!K, !V> =
    | SetTtl(key: K, value: V, ttl: int, at: int)
    | SetExpiry(key: K, value: V, expiresAt: int)
    | Get(key: K, at: int)
    | Has(key: K, at: int)
    | Len(scan: K -> int)
    | All(scan: K -> int)
    | Update(key: K, change: V -> V, newTtl: Option<int>, at: int, later: int)
    | Refresh(key: K, ttl: int, at: int)
    | Delete(key: K)
    | Clear
    | Cleanup(scan: K -> int)

  datatype Output<K, V> =
    | Silent
    | Found(value: Option<V>)
    | Flag(ok: bool)
    | Size(n: nat)
    | Listing(all: map<K, V>)

  predicate Visible<K(==), V>(items: Items<K, V>, k: K, now: int) {
    k in items && !Expired(items[k], now)
  }

  /** The new contents and what the caller sees. */
  function Apply<K(==), V>(items: Items<K, V>, op: Op<K, V>): (Items<K, V>, Output<K, V>) {
    match op
    case SetTtl(k, v, ttl, at) => (items[k := Entry(v, at + ttl)], Silent)
    case SetExpiry(k, v, expiresAt) => (items[k := Entry(v, expiresAt)], Silent)
    case Get(k, at) => (items, Found(if Visible(items, k, at) then Some(items[k].value) else None))
    case Has(k, at) => (items, Flag(Visible(items, k, at)))
    case Len(scan) => (items, Size(|Unexpired(items, scan)|))
    case All(scan) => (items, Listing(Values(Unexpired(items, scan))))
    case Update(k, change, newTtl, at, later) =>
      if Visible(items, k, at) then
        var expiresAt := if newTtl.Some? then later + newTtl.value else items[k].expiresAt;
        (items[k := Entry(change(items[k].value), expiresAt)], Flag(true))
      else
        (items, Flag(false))
    case Refresh(k, ttl, at) =>
      if k in items then (items[k := items[k].(expiresAt := at + ttl)], Flag(true)) else (items, Flag(false))
    case Delete(k) => (items - {k}, Flag(k in items))
    case Clear => (map[], Silent)
    case Cleanup(scan) => (Unexpired(items, scan), Silent)
  }

  // ----- What is written is what is read -----

  /** What a reader at the instant `now` finds. */
  function At<K(==), V>(items: Items<K, V>, k: K, now: int): Option<V> {
    if k in items && now <= items[k].expiresAt then Some(items[k].value) else None
  }

  lemma ReadsAreExact<K, V>(items: Items<K, V>, k: K, now: int)
    ensures Apply(items, Get(k, now)) == (items, Found(At(items, k, now)))
    ensures Apply(items, Has(k, now)) == (items, Flag(At(items, k, now).Some?))
  {
  }

  lemma ScansAreExact<K, V>(items: Items<K, V>, scan: K -> int)
    ensures Apply(items, All(scan)).1.Listing?
    ensures forall k :: var all := Apply(items, All(scan)).1.all;
              && (k in all <==> At(items, k, scan(k)).Some?)
              && (k in all ==> Some(all[k]) == At(items, k, scan(k)))
    ensures Apply(items, Len(scan)).1 == Size(|Apply(items, All(scan)).1.all|)
  {
    assert Values(Unexpired(items, scan)).Keys == Unexpired(items, scan).Keys;
  }

  /** A reader after an operation finds what the operation wrote, for as long as it said. */
  lemma WritesAreRead<K, V>(items: Items<K, V>, op: Op<K, V>, k: K, now: int)
    ensures var items' := Apply(items, op).0;
            match op
            case SetTtl(q, v, ttl, at) =>
              At(items', k, now) == if k != q then At(items, k, now) else if now <= at + ttl then Some(v) else None
            case SetExpiry(q, v, expiresAt) =>
              At(items', k, now) == if k != q then At(items, k, now) else if now <= expiresAt then Some(v) else None
            case Update(q, change, newTtl, at, later) =>
              && Apply(items, op).1 == Flag(At(items, q, at).Some?)
              && (At(items, q, at).None? || k != q ==> At(items', k, now) == At(items, k, now))
              && (At(items, q, at).Some? && k == q ==>
                    var until := if newTtl.Some? then later + newTtl.value else items[q].expiresAt;
                    At(items', k, now) == if now <= until then Some(change(items[q].value)) else None)
            case Refresh(q, ttl, at) =>
              && Apply(items, op).1 == Flag(q in items)
              && (q !in items || k != q ==> At(items', k, now) == At(items, k, now))
              && (q in items && k == q ==> At(items', k, now) == if now <= at + ttl then Some(items[q].value) else None)
            case Delete(q) =>
              && Apply(items, op).1 == Flag(q in items)
              && At(items', k, now) == if k == q then None else At(items, k, now)
            case Clear => At(items', k, now) == None
            case Cleanup(scan) => scan(k) <= now ==> At(items', k, now) == At(items, k, now)
            case _ => At(items', k, now) == At(items, k, now)
  {
  }

  // ----- Runs -----

  /** An operation that ran between two instants. */
  datatype Event<!K, !V> = Event(from: int, op: Op<K, V>, to: int)

  ghost predicate ReadsWithin<K(!new), V>(op: Op<K, V>, from: int, to: int) {
    && (op.SetTtl? || op.Get? || op.Has? || op.Refresh? ==> from <= op.at <= to)
    && (op.Update? ==> from <= op.at <= op.later <= to)
    && (op.Len? || op.All? || op.Cleanup? ==> forall k :: from <= op.scan(k) <= to)
  }

  /** The clock never runs backwards: not within an operation and not from one to the next. */
  ghost predicate WellTimed<K(!new), V>(run: seq<Event<K, V>>, t: int)
    decreases |run|
  {
    run == [] ||
    (var e := run[0]; t <= e.from <= e.to && ReadsWithin(e.op, e.from, e.to) && WellTimed(run[1..], e.to))
  }

  /** The run with its sweeps taken out. */
  function Unswept<K, V>(run: seq<Event<K, V>>): seq<Event<K, V>>
    decreases |run|
  {
    if run == [] then [] else (if run[0].op.Cleanup? then [] else [run[0]]) + Unswept(run[1..])
  }

  /** What callers see over a run; the result of Delete only if `deletesToo`. */
  function Seen<K(==), V>(items: Items<K, V>, run: seq<Event<K, V>>, deletesToo: bool): seq<Output<K, V>>
    decreases |run|
  {
    if run == [] then []
    else
      var (next, out) := Apply(items, run[0].op);
      (if run[0].op.Cleanup? || (run[0].op.Delete? && !deletesToo) then [] else [out])
      + Seen(next, run[1..], deletesToo)
  }

  predicate IsLeftover<K(==), V>(items: Items<K, V>, k: K, now: int) {
    k in items && Expired(items[k], now)
  }

  /** No Refresh (and, if its result is looked at, no Delete) starts on a key whose entry has expired
      and has not been swept. */
  predicate Tidy<K(==), V>(items: Items<K, V>, run: seq<Event<K, V>>, deletesToo: bool)
    decreases |run|
  {
    run == [] ||
    (var e := run[0];
     && (e.op.Refresh? || (deletesToo && e.op.Delete?) ==> !IsLeftover(items, e.op.key, e.from))
     && Tidy(Apply(items, e.op).0, run[1..], deletesToo))
  }

  // ----- A swept store against one that is never swept -----

  /** The swept store holds part of the other one, and all of it that is still alive. */
  ghost predicate Follows<K, V>(swept: Items<K, V>, full: Items<K, V>, t: int) {
    && (forall k :: k in swept ==> k in full && swept[k] == full[k])
    && (forall k :: k in full && !Expired(full[k], t) ==> k in swept)
  }

  lemma ScansAgree<K, V>(swept: Items<K, V>, full: Items<K, V>, scan: K -> int, t: int)
    requires Follows(swept, full, t) && forall k :: t <= scan(k)
    ensures Unexpired(swept, scan) == Unexpired(full, scan)
  {
  }

  lemma CleanupFollows<K(!new), V>(swept: Items<K, V>, full: Items<K, V>, e: Event<K, V>, t: int)
    requires Follows(swept, full, t) && t <= e.from <= e.to && e.op.Cleanup? && ReadsWithin(e.op, e.from, e.to)
    ensures Follows(Apply(swept, e.op).0, full, e.to)
  {
  }

  lemma OpOutputsAgree<K(!new), V>(swept: Items<K, V>, full: Items<K, V>, e: Event<K, V>, t: int)
    requires Follows(swept, full, t) && t <= e.from <= e.to && ReadsWithin(e.op, e.from, e.to)
    requires !e.op.Cleanup? && (e.op.Refresh? ==> !IsLeftover(full, e.op.key, e.from))
    ensures (e.op.Delete? && IsLeftover(full, e.op.key, e.from)) || Apply(swept, e.op).1 == Apply(full, e.op).1
  {
    if e.op.Len? || e.op.All? {
      ScansAgree(swept, full, e.op.scan, t);
    }
  }

  lemma OpFollows<K(!new), V>(swept: Items<K, V>, full: Items<K, V>, e: Event<K, V>, t: int)
    requires Follows(swept, full, t) && t <= e.from <= e.to && ReadsWithin(e.op, e.from, e.to)
    requires !e.op.Cleanup? && (e.op.Refresh? ==> !IsLeftover(full, e.op.key, e.from))
    ensures Follows(Apply(swept, e.op).0, Apply(full, e.op).0, e.to)
  {
  }

  lemma {:induction false} SweptRunSeesTheSame<K(!new), V>(
    swept: Items<K, V>, full: Items<K, V>, run: seq<Event<K, V>>, t: int, deletesToo: bool)
    requires Follows(swept, full, t) && WellTimed(run, t) && Tidy(full, Unswept(run), deletesToo)
    ensures Seen(swept, run, deletesToo) == Seen(full, Unswept(run), deletesToo)
    decreases |run|
  {
    if run != [] {
      var e := run[0];
      if e.op.Cleanup? {
        assert Unswept(run) == Unswept(run[1..]);
        CleanupFollows(swept, full, e, t);
        SweptRunSeesTheSame(Apply(swept, e.op).0, full, run[1..], e.to, deletesToo);
      } else {
        assert Unswept(run)[0] == e && Unswept(run)[1..] == Unswept(run[1..]);
        OpFollows(swept, full, e, t);
        OpOutputsAgree(swept, full, e, t);
        SweptRunSeesTheSame(Apply(swept, e.op).0, Apply(full, e.op).0, run[1..], e.to, deletesToo);
      }
    }
  }

  /** A run that is not tidy can be told apart from itself with one sweep put in. */
  lemma {:induction false} UntidyRunIsExposed<K(!new), V>(
    items: Items<K, V>, run: seq<Event<K, V>>, t: int, deletesToo: bool) returns (swept: seq<Event<K, V>>)
    requires WellTimed(run, t) && Unswept(run) == run && !Tidy(items, run, deletesToo)
    ensures WellTimed(swept, t) && Unswept(swept) == run
    ensures Seen(items, swept, deletesToo) != Seen(items, run, deletesToo)
    decreases |run|
  {
    var e := run[0];
    UnsweptRest(run);
    if (e.op.Refresh? || (deletesToo && e.op.Delete?)) && IsLeftover(items, e.op.key, e.from) {
      var sweep: Event<K, V> := Event(e.from, Cleanup(_ => e.from), e.from);
      swept := [sweep] + run;
      assert swept[1..] == run;
      var cleaned := Apply(items, sweep.op).0;
      assert e.op.key !in cleaned;
      assert Seen(items, swept, deletesToo) == Seen(cleaned, run, deletesToo);
      assert Seen(cleaned, run, deletesToo)[0] == Flag(false) && Seen(items, run, deletesToo)[0] == Flag(true);
    } else {
      var next := Apply(items, e.op).0;
      var rest := UntidyRunIsExposed(next, run[1..], e.to, deletesToo);
      swept := [e] + rest;
      assert swept[1..] == rest && swept[0] == e;
      assert run == [e] + run[1..];
      var head := if e.op.Delete? && !deletesToo then [] else [Apply(items, e.op).1];
      assert Seen(items, swept, deletesToo) == head + Seen(next, rest, deletesToo);
      assert Seen(items, run, deletesToo) == head + Seen(next, run[1..], deletesToo);
      if Seen(items, swept, deletesToo) == Seen(items, run, deletesToo) {
        SameHeadSameTail(head, Seen(next, rest, deletesToo), Seen(next, run[1..], deletesToo));
      }
    }
  }

  lemma UnsweptRest<K, V>(run: seq<Event<K, V>>)
    requires run != [] && Unswept(run) == run
    ensures !run[0].op.Cleanup? && Unswept(run[1..]) == run[1..]
  {
    UnsweptIsShorter(run[1..]);
  }

  lemma {:induction false} UnsweptIsShorter<K, V>(run: seq<Event<K, V>>)
    ensures |Unswept(run)| <= |run|
    decreases |run|
  {
    if run != [] {
      UnsweptIsShorter(run[1..]);
    }
  }

  lemma SameHeadSameTail<T>(head: seq<T>, a: seq<T>, b: seq<T>)
    requires head + a == head + b
    ensures a == b
  {
    assert a == (head + a)[|head|..] && b == (head + b)[|head|..];
  }

  ghost predicate SweepingIsInvisible<K(!new), V(!new)>(items: Items<K, V>, run: seq<Event<K, V>>, t: int,
      deletesToo: bool) {
    forall swept: seq<Event<K, V>> :: WellTimed(swept, t) && Unswept(swept) == run ==>
      Seen(items, swept, deletesToo) == Seen(items, run, deletesToo)
  }

  /** However many sweeps are put into a run, and wherever, callers see what they would have seen
      without them, exactly when the run is tidy. */
  lemma SweepingIsInvisibleIff<K(!new), V(!new)>(items: Items<K, V>, run: seq<Event<K, V>>, t: int, deletesToo: bool)
    requires WellTimed(run, t) && Unswept(run) == run
    ensures SweepingIsInvisible(items, run, t, deletesToo) <==> Tidy(items, run, deletesToo)
  {
    if Tidy(items, run, deletesToo) {
      forall swept: seq<Event<K, V>> | WellTimed(swept, t) && Unswept(swept) == run
        ensures Seen(items, swept, deletesToo) == Seen(items, run, deletesToo)
      {
        SweptRunSeesTheSame(items, items, swept, t, deletesToo);
      }
    } else {
      var swept := UntidyRunIsExposed(items, run, t, deletesToo);
    }
  }

  /** A key that is set, lapses and is deleted: a sweep in between changes what Delete says. */
  lemma LapsedDeleteIsUntidy<K(!new), V(!new)>(k: K, v: V)
    returns (run: seq<Event<K, V>>, swept: seq<Event<K, V>>)
    ensures WellTimed(run, 0) && Unswept(run) == run && !Tidy(map[], run, true)
    ensures WellTimed(swept, 0) && Unswept(swept) == run && Seen(map[], swept, true) != Seen(map[], run, true)
  {
    var store: Event<K, V> := Event(0, SetTtl(k, v, 1, 0), 0);
    var delete: Event<K, V> := Event(2, Delete(k), 2);
    run := [store, delete];
    assert run[1..] == [delete] && run[1..][1..] == [];
    assert Unswept([delete]) == [delete];
    assert WellTimed([delete], 0);
    var items: Items<K, V> := Apply(map[], store.op).0;
    assert IsLeftover(items, k, 2);
    assert !Tidy(items, [delete], true);
    swept := UntidyRunIsExposed(map[], run, 0, true);
  }

  lemma {:induction false} WithoutRefreshIsTidy<K, V>(items: Items<K, V>, run: seq<Event<K, V>>)
    requires forall e :: e in run ==> !e.op.Refresh?
    ensures Tidy(items, run, false)
    decreases |run|
  {
    if run != [] {
      WithoutRefreshIsTidy(Apply(items, run[0].op).0, run[1..]);
    }
  }

  lemma {:induction false} UnsweptKeepsEvents<K, V>(run: seq<Event<K, V>>, e: Event<K, V>)
    requires e in Unswept(run)
    ensures e in run
    decreases |run|
  {
    if !(e == run[0]) {
      UnsweptKeepsEvents(run[1..], e);
    }
  }

  /** Two runs that differ only in their sweeps look alike, if neither calls Refresh and the result of
      Delete is not looked at. */
  lemma SweepsDoNotMatter<K(!new), V(!new)>(items: Items<K, V>, a: seq<Event<K, V>>, b: seq<Event<K, V>>, t: int)
    requires WellTimed(a, t) && WellTimed(b, t) && Unswept(a) == Unswept(b)
    requires forall e :: e in a ==> !e.op.Refresh?
    ensures Seen(items, a, false) == Seen(items, b, false)
  {
    forall e | e in Unswept(a) ensures !e.op.Refresh? {
      UnsweptKeepsEvents(a, e);
    }
    WithoutRefreshIsTidy(items, Unswept(a));
    SweptRunSeesTheSame(items, items, a, t, false);
    SweptRunSeesTheSame(items, items, b, t, false);
  }

  // ----- The store -----

  /** Every instant of the scan `at` lies between the two. */
  ghost predicate ScansWithin<K(!new)>(scan: K -> int, from: int, to: int) {
    forall k :: from <= scan(k) <= to
  }

  class TTLStore<K(!new, ==), V(!new)> {
    var items: map<K, Entry<V>>
    const clock: Clock

    constructor (clock: Clock)
      ensures items == map[] && this.clock == clock
    {
      items := map[];
      this.clock := clock;
    }

    method Set(key: K, value: V, ttl: int)
      modifies this, clock
      ensures old(clock.now) <= clock.now
      ensures items == Apply(old(items), SetTtl(key, value, ttl, clock.now)).0
    {
      var now := clock.Now();
      items := items[key := Entry(value, now + ttl)];
    }

    method SetWithExpiry(key: K, value: V, expiresAt: int)
      modifies this
      ensures items == Apply(old(items), SetExpiry(key, value, expiresAt)).0
    {
      items := items[key := Entry(value, expiresAt)];
    }

    method Get(key: K) returns (r: Option<V>)
      modifies clock
      ensures old(clock.now) <= clock.now
      ensures Found(r) == Apply(items, Op.Get(key, clock.now)).1
      ensures r == if key in items && clock.now <= items[key].expiresAt then Some(items[key].value) else None
    {
      var now := clock.Now();
      if key !in items || Expired(items[key], now) {
        return None;
      }
      r := Some(items[key].value);
    }

    method Has(key: K) returns (r: bool)
      modifies clock
      ensures old(clock.now) <= clock.now
      ensures Flag(r) == Apply(items, Op.Has(key, clock.now)).1
      ensures r <==> key in items && clock.now <= items[key].expiresAt
    {
      var now := clock.Now();
      r := key in items && !Expired(items[key], now);
    }

    /** The clock is read anew for every entry, so the count need not be that of any one instant. */
    method Len() returns (n: nat, ghost scan: K -> int)
      modifies clock
      ensures ScansWithin(scan, old(clock.now), clock.now)
      ensures Size(n) == Apply(items, Op.Len(scan)).1
    {
      n := 0;
      var todo := items.Keys;
      ghost var start := clock.now;
      scan := _ => start;
      while todo != {}
        invariant todo <= items.Keys && start == old(clock.now) <= clock.now
        invariant ScansWithin(scan, start, clock.now)
        invariant n == |Scanned(items, todo, scan)|
        decreases |todo|
      {
        SomeElement(todo);
        var k :| k in todo;
        var now := clock.Now();
        ScanOne(items, todo, scan, k, now);
        scan := Revised(scan, k, now);
        todo := todo - {k};
        if !Expired(items[k], now) {
          n := n + 1;
        }
      }
      assert Scanned(items, {}, scan) == Unexpired(items, scan);
    }

    method All() returns (r: map<K, V>, ghost scan: K -> int)
      modifies clock
      ensures ScansWithin(scan, old(clock.now), clock.now)
      ensures Listing(r) == Apply(items, Op.All(scan)).1
      ensures forall k :: k in r <==> k in items && scan(k) <= items[k].expiresAt
      ensures forall k :: k in r ==> r[k] == items[k].value
    {
      r := map[];
      var todo := items.Keys;
      ghost var start := clock.now;
      scan := _ => start;
      while todo != {}
        invariant todo <= items.Keys && start == old(clock.now) <= clock.now
        invariant ScansWithin(scan, start, clock.now)
        invariant r == Values(Scanned(items, todo, scan))
        decreases |todo|
      {
        SomeElement(todo);
        var k :| k in todo;
        var now := clock.Now();
        ScanOne(items, todo, scan, k, now);
        scan := Revised(scan, k, now);
        todo := todo - {k};
        if !Expired(items[k], now) {
          r := r[k := items[k].value];
        }
      }
      assert Scanned(items, {}, scan) == Unexpired(items, scan);
    }

    method Update(key: K, change: V -> V, newTtl: Option<int>) returns (ok: bool, ghost at: int)
      modifies this, clock
      ensures old(clock.now) <= at <= clock.now
      ensures (items, Flag(ok)) == Apply(old(items), Op.Update(key, change, newTtl, at, clock.now))
    {
      var now := clock.Now();
      at := now;
      ghost var was := items;
      if key !in items || Expired(items[key], now) {
        ok := false;
        return;
      }
      items := items[key := items[key].(value := change(items[key].value))];
      if newTtl.Some? {
        var later := clock.Now();
        items := items[key := items[key].(expiresAt := later + newTtl.value)];
        assert items == was[key := items[key]];
      }
      ok := true;
    }

    method Refresh(key: K, ttl: int) returns (ok: bool)
      modifies this, clock
      ensures old(clock.now) <= clock.now
      ensures (items, Flag(ok)) == Apply(old(items), Op.Refresh(key, ttl, clock.now))
    {
      if key !in items {
        return false;
      }
      var now := clock.Now();
      items := items[key := items[key].(expiresAt := now + ttl)];
      ok := true;
    }

    method Delete(key: K) returns (ok: bool)
      modifies this
      ensures (items, Flag(ok)) == Apply(old(items), Op.Delete(key))
    {
      ok := key in items;
      assert !ok ==> items == items - {key};
      if ok {
        items := items - {key};
      }
    }

    method Clear()
      modifies this
      ensures items == Apply(old(items), Op.Clear).0
    {
      items := map[];
    }

    /** Removes what each look at the clock finds expired; the callbacks are for exactly the removed
        entries, once each. */
    method Cleanup() returns (evicted: seq<(K, V)>, ghost scan: K -> int)
      modifies this, clock
      ensures ScansWithin(scan, old(clock.now), clock.now)
      ensures items == Apply(old(items), Op.Cleanup(scan)).0
      ensures AreRemoved(evicted, old(items), items)
      ensures forall k :: k in items <==> k in old(items) && scan(k) <= old(items)[k].expiresAt
      ensures forall k :: k in items ==> items[k] == old(items)[k]
    {
      evicted := [];
      var todo := items.Keys;
      ghost var start := clock.now;
      ghost var was := items;
      scan := _ => start;
      while todo != {}
        invariant todo <= items.Keys && start == old(clock.now) <= clock.now && was == old(items)
        invariant ScansWithin(scan, start, clock.now)
        invariant items == Kept(was, todo, scan)
        invariant AreRemoved(evicted, was, items)
        decreases |todo|
      {
        SomeElement(todo);
        var k :| k in todo;
        var now := clock.Now();
        KeepOne(was, todo, scan, k, now);
        scan := Revised(scan, k, now);
        todo := todo - {k};
        if Expired(items[k], now) {
          RemoveOne(evicted, was, items, k);
          evicted := evicted + [(k, items[k].value)];
          items := items - {k};
        }
      }
      assert items == Unexpired(was, scan);
    }
  }

  // ----- One turn of a scan -----

  ghost function Revised<K>(scan: K -> int, k: K, now: int): K -> int {
    x => if x == k then now else scan(x)
  }

  /** The live entries among those already looked at. */
  ghost function Scanned<K, V>(items: Items<K, V>, todo: set<K>, scan: K -> int): Items<K, V> {
    map k | k in items && k !in todo && !Expired(items[k], scan(k)) :: items[k]
  }

  lemma ScanOne<K, V>(items: Items<K, V>, todo: set<K>, scan: K -> int, k: K, now: int)
    requires k in todo && k in items
    ensures var before := Scanned(items, todo, scan);
            && k !in before
            && Scanned(items, todo - {k}, Revised(scan, k, now))
               == if Expired(items[k], now) then before else before[k := items[k]]
  {
  }

  /** What a sweep has left in place so far. */
  ghost function Kept<K, V>(items: Items<K, V>, todo: set<K>, scan: K -> int): Items<K, V> {
    map k | k in items && (k in todo || !Expired(items[k], scan(k))) :: items[k]
  }

  lemma KeepOne<K, V>(items: Items<K, V>, todo: set<K>, scan: K -> int, k: K, now: int)
    requires k in todo && k in items
    ensures var before := Kept(items, todo, scan);
            && k in before && before[k] == items[k]
            && Kept(items, todo - {k}, Revised(scan, k, now)) == if Expired(items[k], now) then before - {k} else before
  {
  }

  /** The list holds the entries of `was` that are not in `items`, each once. */
  ghost predicate AreRemoved<K(!new), V(!new)>(list: seq<(K, V)>, was: Items<K, V>, items: Items<K, V>) {
    && items.Keys <= was.Keys
    && (forall k, v :: (k, v) in list <==> k in was && k !in items && v == was[k].value)
    && |list| == |was| - |items|
  }

  lemma RemoveOne<K(!new), V(!new)>(list: seq<(K, V)>, was: Items<K, V>, items: Items<K, V>, k: K)
    requires AreRemoved(list, was, items) && k in items && was[k] == items[k]
    ensures AreRemoved(list + [(k, items[k].value)], was, items - {k})
  {
    assert (items - {k}).Keys == items.Keys - {k};
    assert |items.Keys| == |items| && |(items - {k}).Keys| == |items - {k}|;
  }
}
