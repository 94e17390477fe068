/** Exactly when a binding still holds a registration to its CSeq, expired or not. */
module RegistrarReplay {
  import TtlStore
  import opened Registrar

  type Key = (Aor, BindingId)

  /** The event stores or removes the binding of `k`. */
  predicate Touches(cfg: Config, items: Items, e: Event, k: Key) {
    match e
    case Register(b, start, get, _, _, _) =>
      var r := RegisterOutcome(cfg, items, b, start, get);
      r.Accepted? && (b.aor, r.binding.id) == k
    case Unregister(aor, id, wildcard, get, _, _, _) =>
      UnregisterOutcome(items, aor, id, wildcard, get).Removed? && aor == k.0 && (wildcard || id == k.1)
    case Cleanup(_, _, _) => false
  }

  predicate Untouched(cfg: Config, items: Items, run: seq<Event>, k: Key)
    decreases |run|
  {
    run == [] || (!Touches(cfg, items, run[0], k) && Untouched(cfg, Apply(cfg, items, run[0]), run[1..], k))
  }

  predicate IsFor(e: Event, aor: Aor) {
    (e.Register? && e.binding.aor == aor) || (e.Unregister? && e.aor == aor)
  }

  /** Every operation on the AOR found its entry visible. */
  predicate VisibleThroughout(cfg: Config, items: Items, run: seq<Event>, aor: Aor)
    decreases |run|
  {
    run == [] ||
    ((IsFor(run[0], aor) ==> TtlStore.Visible(items, aor, run[0].get))
     && VisibleThroughout(cfg, Apply(cfg, items, run[0]), run[1..], aor))
  }

  // ----- Once out of sight, out of the store -----

  /** The entry cannot be seen any more, or does not have the binding. */
  predicate Missing(items: Items, k: Key, t: int) {
    !TtlStore.Visible(items, k.0, t) || k.1 !in items[k.0].value
  }

  lemma MissingStays(cfg: Config, items: Items, t: int, e: Event, k: Key)
    requires Missing(items, k, t) && t <= Start(e) && Enabled(cfg, items, e) && !Touches(cfg, items, e, k)
    ensures Missing(Apply(cfg, items, e), k, e.end)
  {
  }

  lemma {:induction false} MissingForGood(cfg: Config, items: Items, t: int, run: seq<Event>, k: Key, get: int)
    requires Missing(items, k, t) && Feasible(cfg, items, t, run) && Untouched(cfg, items, run, k)
             && EndOf(t, run) <= get
    ensures k.1 !in Found(After(cfg, items, run), k.0, get)
    decreases |run|
  {
    if run != [] {
      MissingStays(cfg, items, t, run[0], k);
      assert EndOf(run[0].end, run[1..]) == EndOf(t, run);
      MissingForGood(cfg, Apply(cfg, items, run[0]), run[0].end, run[1..], k, get);
    }
  }

  lemma HiddenStays(cfg: Config, items: Items, t: int, e: Event, aor: Aor)
    requires !TtlStore.Visible(items, aor, t) && t <= Start(e) && Enabled(cfg, items, e) && !IsFor(e, aor)
    ensures !TtlStore.Visible(Apply(cfg, items, e), aor, e.end)
  {
  }

  /** An entry out of sight is found so by the next operation on the AOR, or at the end. */
  lemma {:induction false} HiddenIsNoticed(cfg: Config, items: Items, t: int, run: seq<Event>, aor: Aor, get: int)
    requires !TtlStore.Visible(items, aor, t) && Feasible(cfg, items, t, run) && EndOf(t, run) <= get
    ensures !VisibleThroughout(cfg, items, run, aor) || !TtlStore.Visible(After(cfg, items, run), aor, get)
    decreases |run|
  {
    if run != [] && !IsFor(run[0], aor) {
      HiddenStays(cfg, items, t, run[0], aor);
      assert EndOf(run[0].end, run[1..]) == EndOf(t, run);
      HiddenIsNoticed(cfg, Apply(cfg, items, run[0]), run[0].end, run[1..], aor, get);
    }
  }

  // ----- While in sight, in the store -----

  predicate Stored(items: Items, k: Key, w: Binding) {
    k.0 in items && k.1 in items[k.0].value && items[k.0].value[k.1] == w
  }

  lemma StoredStays(cfg: Config, items: Items, e: Event, k: Key, w: Binding)
    requires Stored(items, k, w) && Enabled(cfg, items, e) && !Touches(cfg, items, e, k)
    requires IsFor(e, k.0) ==> TtlStore.Visible(items, k.0, e.get)
    ensures Stored(Apply(cfg, items, e), k, w) || (e.Cleanup? && k.0 !in Apply(cfg, items, e))
  {
    if e.Unregister? && e.aor == k.0 && UnregisterOutcome(items, e.aor, e.id, e.wildcard, e.get).Removed? {
      assert k.1 in items[k.0].value - {e.id};
    }
  }

  /** From the state in which a binding is stored, over a run that neither stores nor removes it: it is
      found at the end if and only if every operation on its AOR, and the last look, see the entry. */
  lemma {:induction false} KeptIffVisible(
    cfg: Config, items: Items, t: int, run: seq<Event>, k: Key, w: Binding, get: int)
    requires Stored(items, k, w) && Feasible(cfg, items, t, run) && Untouched(cfg, items, run, k)
             && EndOf(t, run) <= get
    ensures var found := Found(After(cfg, items, run), k.0, get);
            && (k.1 in found <==> VisibleThroughout(cfg, items, run, k.0)
                                  && TtlStore.Visible(After(cfg, items, run), k.0, get))
            && (k.1 in found ==> found[k.1] == w)
    decreases |run|
  {
    if run != [] {
      var e, rest := run[0], run[1..];
      var next := Apply(cfg, items, e);
      assert EndOf(e.end, rest) == EndOf(t, run);
      if IsFor(e, k.0) && !TtlStore.Visible(items, k.0, e.get) {
        MissingFrom(cfg, items, t, e, k);
        MissingForGood(cfg, next, e.end, rest, k, get);
      } else {
        StoredStays(cfg, items, e, k, w);
        if Stored(next, k, w) {
          KeptIffVisible(cfg, next, e.end, rest, k, w, get);
        } else {
          MissingForGood(cfg, next, e.end, rest, k, get);
          HiddenIsNoticed(cfg, next, e.end, rest, k.0, get);
        }
      }
    }
  }

  lemma MissingFrom(cfg: Config, items: Items, t: int, e: Event, k: Key)
    requires IsFor(e, k.0) && !TtlStore.Visible(items, k.0, e.get) && Enabled(cfg, items, e)
             && !Touches(cfg, items, e, k)
    ensures Missing(Apply(cfg, items, e), k, e.end)
  {
  }

  // ----- The registrar's answer -----

  /** A registration that names the binding `w`, brings its Call-ID and no higher CSeq, and has nothing
      else wrong with it. */
  predicate Replays(cfg: Config, b: Binding, w: Binding, start: int) {
    && b.aor != "" && b.contact != "" && Requested(cfg, b) >= cfg.minExpires
    && b.aor == w.aor && Stamped(cfg, b, start).id == w.id && b.callId == w.callId && b.cseq <= w.cseq
  }

  /** The binding `w` was accepted by the event `r`, and `later` neither replaced nor removed it.  However
      long it has lapsed, it refuses a replay exactly if its AOR's entry has been visible at every
      operation on the AOR since, and still is. */
  lemma ReplayIsRefusedIff(cfg: Config, t: int, earlier: seq<Event>, r: Event, later: seq<Event>,
                           w: Binding, b: Binding, start: int, get: int)
    requires Feasible(cfg, map[], t, earlier + [r] + later) && r.Register?
    requires RegisterOutcome(cfg, After(cfg, map[], earlier), r.binding, r.start, r.get) == Accepted(w)
    requires Untouched(cfg, After(cfg, map[], earlier + [r]), later, (w.aor, w.id))
    requires EndOf(t, earlier + [r] + later) <= start <= get && Replays(cfg, b, w, start)
    ensures RegisterOutcome(cfg, After(cfg, map[], earlier + [r] + later), b, start, get).StaleCSeq?
            <==> && VisibleThroughout(cfg, After(cfg, map[], earlier + [r]), later, w.aor)
                 && TtlStore.Visible(After(cfg, map[], earlier + [r] + later), w.aor, get)
  {
    var items := After(cfg, map[], earlier + [r]);
    SplitAfter(cfg, map[], t, earlier + [r], later);
    EndOfBoth(t, earlier + [r], later);
    SplitAfter(cfg, map[], t, earlier, [r]);
    assert After(cfg, After(cfg, map[], earlier), [r]) == Apply(cfg, After(cfg, map[], earlier), r) by {
      assert [r][1..] == [];
    }
    assert Stored(items, (w.aor, w.id), w);
    KeptIffVisible(cfg, items, EndOf(t, earlier + [r]), later, (w.aor, w.id), w, get);
  }

  lemma EndOfBoth(t: int, xs: seq<Event>, ys: seq<Event>)
    ensures EndOf(t, xs + ys) == EndOf(EndOf(t, xs), ys)
  {
    if ys == [] {
      assert xs + ys == xs;
    } else {
      assert (xs + ys)[|xs + ys| - 1] == ys[|ys| - 1];
    }
  }

  lemma {:induction false} SplitAfter(cfg: Config, items: Items, t: int, xs: seq<Event>, ys: seq<Event>)
    requires Feasible(cfg, items, t, xs + ys)
    ensures Feasible(cfg, items, t, xs) && Feasible(cfg, After(cfg, items, xs), EndOf(t, xs), ys)
    ensures After(cfg, items, xs + ys) == After(cfg, After(cfg, items, xs), ys)
    decreases |xs|
  {
    if xs == [] {
      assert xs + ys == ys;
    } else {
      var e, rest := xs[0], xs[1..];
      assert (xs + ys)[0] == e && (xs + ys)[1..] == rest + ys;
      assert EndOf(e.end, rest) == EndOf(t, xs);
      SplitAfter(cfg, Apply(cfg, items, e), e.end, rest, ys);
    }
  }

  // ----- A neighbour that stays alive -----

  lemma {:induction false} EndsInOrder(cfg: Config, items: Items, t: int, run: seq<Event>)
    requires Feasible(cfg, items, t, run)
    ensures t <= EndOf(t, run)
    decreases |run|
  {
    if run != [] {
      EndsInOrder(cfg, Apply(cfg, items, run[0]), run[0].end, run[1..]);
      assert EndOf(run[0].end, run[1..]) == EndOf(t, run);
    }
  }

  lemma RecordKeeps(cfg: Config, items: Items, ledger: Ledger, e: Event, k: Key)
    requires k in ledger && !Touches(cfg, items, e, k)
    ensures k in Record(cfg, ledger, items, e) && Record(cfg, ledger, items, e)[k] == ledger[k]
  {
  }

  /** A binding that is not touched during the run and still alive after it keeps the entry of its AOR
      visible at every operation, and afterwards. */
  lemma {:induction false} LiveNeighbourKeepsVisible(
    cfg: Config, items: Items, ledger: Ledger, t: int, run: seq<Event>, k: Key, get: int)
    requires Refines(items, ledger, t) && Feasible(cfg, items, t, run) && EndOf(t, run) <= get
    requires k in ledger && Untouched(cfg, items, run, k) && !Expired(ledger[k], get)
    ensures VisibleThroughout(cfg, items, run, k.0) && TtlStore.Visible(After(cfg, items, run), k.0, get)
    decreases |run|
  {
    if run == [] {
      LiveBindingIsFound(items, ledger, t, k.0, k.1, get);
    } else {
      var e := run[0];
      var next := Apply(cfg, items, e);
      assert EndOf(e.end, run[1..]) == EndOf(t, run);
      EndsInOrder(cfg, next, e.end, run[1..]);
      if IsFor(e, k.0) {
        LiveBindingIsFound(items, ledger, t, k.0, k.1, e.get);
      }
      EventRefines(cfg, items, ledger, t, e);
      RecordKeeps(cfg, items, ledger, e, k);
      LiveNeighbourKeepsVisible(cfg, next, Record(cfg, ledger, items, e), e.end, run[1..], k, get);
    }
  }

  /** So a lapsed binding refuses a replay whenever another binding of its AOR, already there when it was
      stored and not touched since, is still alive. */
  lemma NeighbourKeepsRefusal(cfg: Config, t: int, earlier: seq<Event>, r: Event, later: seq<Event>,
                              w: Binding, b: Binding, start: int, get: int, other: BindingId)
    requires Feasible(cfg, map[], t, earlier + [r] + later) && r.Register?
    requires RegisterOutcome(cfg, After(cfg, map[], earlier), r.binding, r.start, r.get) == Accepted(w)
    requires Untouched(cfg, After(cfg, map[], earlier + [r]), later, (w.aor, w.id))
    requires EndOf(t, earlier + [r] + later) <= start <= get && Replays(cfg, b, w, start)
    requires var ledger := LedgerAfter(cfg, map[], map[], earlier + [r]);
             && (w.aor, other) in ledger && !Expired(ledger[(w.aor, other)], get)
             && Untouched(cfg, After(cfg, map[], earlier + [r]), later, (w.aor, other))
    ensures RegisterOutcome(cfg, After(cfg, map[], earlier + [r] + later), b, start, get).StaleCSeq?
  {
    var run := earlier + [r];
    SplitAfter(cfg, map[], t, run, later);
    EndOfBoth(t, run, later);
    RunRefines(cfg, map[], map[], t, run);
    LiveNeighbourKeepsVisible(cfg, After(cfg, map[], run), LedgerAfter(cfg, map[], map[], run), EndOf(t, run), later,
                              (w.aor, other), get);
    ReplayIsRefusedIff(cfg, t, earlier, r, later, w, b, start, get);
  }

  // ----- Every binding in the ledger was stored by some event -----

  lemma {:induction false} StoredBySome(cfg: Config, t: int, run: seq<Event>, k: Key)
    returns (earlier: seq<Event>, r: Event, later: seq<Event>)
    requires Feasible(cfg, map[], t, run) && k in LedgerAfter(cfg, map[], map[], run)
    ensures run == earlier + [r] + later && r.Register?
    ensures RegisterOutcome(cfg, After(cfg, map[], earlier), r.binding, r.start, r.get)
            == Accepted(LedgerAfter(cfg, map[], map[], run)[k])
    ensures k == (r.binding.aor, LedgerAfter(cfg, map[], map[], run)[k].id)
    ensures Untouched(cfg, After(cfg, map[], earlier + [r]), later, k)
    decreases |run|
  {
    assert run != [];
    var init, e := run[..|run| - 1], run[|run| - 1];
    assert run == init + [e];
    SplitRun(cfg, map[], map[], t, init, e);
    SplitAfter(cfg, map[], t, init, [e]);
    var items, ledger := After(cfg, map[], init), LedgerAfter(cfg, map[], map[], init);
    if Touches(cfg, items, e, k) {
      earlier, r, later := init, e, [];
      assert run == earlier + [r] + later;
    } else {
      assert k in ledger && LedgerAfter(cfg, map[], map[], run)[k] == ledger[k];
      earlier, r, later := StoredBySome(cfg, t, init, k);
      assert run == earlier + [r] + (later + [e]);
      SplitAfter(cfg, map[], t, earlier + [r], later);
      UntouchedSnoc(cfg, After(cfg, map[], earlier + [r]), later, e, k);
      later := later + [e];
    }
  }

  lemma {:induction false} UntouchedSnoc(cfg: Config, items: Items, run: seq<Event>, e: Event, k: Key)
    requires Untouched(cfg, items, run, k) && !Touches(cfg, After(cfg, items, run), e, k)
    ensures Untouched(cfg, items, run + [e], k)
    decreases |run|
  {
    if run == [] {
      assert run + [e] == [e] && [e][1..] == [];
    } else {
      assert (run + [e])[0] == run[0] && (run + [e])[1..] == run[1..] + [e];
      UntouchedSnoc(cfg, Apply(cfg, items, run[0]), run[1..], e, k);
    }
  }
}
