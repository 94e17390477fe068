/** Fairness of the pool's round-robin selection. */
module RoundRobin {
  import opened CallStates
  import opened MediaPool

  /** `n` selections in a row, with nothing else happening to the pool. */
  function Picks(p: PoolState, n: nat): seq<Option<NodeId>>
    decreases n
  {
    if n == 0 then []
    else
      var (p', pick) := Select(p);
      [pick] + Picks(p', n - 1)
  }

  function Count<T(==)>(xs: seq<T>, x: T): nat {
    if xs == [] then 0 else (if xs[0] == x then 1 else 0) + Count(xs[1..], x)
  }

  // ----- A walk around a circle of `k` places -----

  function Succ(r: nat, k: nat): nat {
    if r + 1 < k then r + 1 else 0
  }

  /** How often `n` steps from `r` land on `i`. */
  function Visits(i: nat, r: nat, n: nat, k: nat): nat
    decreases n
  {
    if n == 0 then 0 else (if Succ(r, k) == i then 1 else 0) + Visits(i, Succ(r, k), n - 1, k)
  }

  function Ahead(r: nat, n: nat, k: nat): nat
    decreases n
  {
    if n == 0 then r else Ahead(Succ(r, k), n - 1, k)
  }

  /** Steps from `r` up to, not counting, the one that lands on `i`. */
  function Gap(i: nat, r: nat, k: nat): nat
    requires i < k && r < k
  {
    if i > r then i - r - 1 else i + k - r - 1
  }

  lemma {:induction false} ShortWalk(i: nat, r: nat, n: nat, k: nat)
    requires i < k && r < k && n <= k
    ensures Visits(i, r, n, k) == if Gap(i, r, k) < n then 1 else 0
    decreases n
  {
    if n > 0 {
      ShortWalk(i, Succ(r, k), n - 1, k);
    }
  }

  lemma {:induction false} SplitWalk(i: nat, r: nat, m: nat, n: nat, k: nat)
    ensures Visits(i, r, m + n, k) == Visits(i, r, m, k) + Visits(i, Ahead(r, m, k), n, k)
    decreases m
  {
    if m > 0 {
      SplitWalk(i, Succ(r, k), m - 1, n, k);
    }
  }

  lemma {:induction false} AheadWraps(r: nat, n: nat, k: nat)
    requires r < k && n <= k
    ensures Ahead(r, n, k) == if r + n < k then r + n else r + n - k
    decreases n
  {
    if n > 0 {
      AheadWraps(Succ(r, k), n - 1, k);
    }
  }

  /** A walk that begins with a whole turn visits every place once more than the rest of it. */
  lemma WholeTurn(i: nat, r: nat, n: nat, k: nat)
    requires i < k && r < k
    ensures Visits(i, r, k + n, k) == 1 + Visits(i, r, n, k)
  {
    SplitWalk(i, r, k, n, k);
    ShortWalk(i, r, k, k);
    AheadWraps(r, k, k);
  }

  lemma {:induction false} WalkIsFair(i: nat, j: nat, r: nat, n: nat, k: nat)
    requires i < k && j < k && r < k
    ensures Visits(i, r, n, k) <= Visits(j, r, n, k) + 1
    decreases n
  {
    if n <= k {
      ShortWalk(i, r, n, k);
      ShortWalk(j, r, n, k);
    } else {
      WholeTurn(i, r, n - k, k);
      WholeTurn(j, r, n - k, k);
      WalkIsFair(i, j, r, n - k, k);
    }
  }

  lemma {:induction false} TurnsVisitEach(i: nat, r: nat, turns: nat, k: nat)
    requires i < k && r < k
    ensures Visits(i, r, turns * k, k) == turns
    decreases turns
  {
    if turns > 0 {
      assert turns * k == k + (turns - 1) * k;
      WholeTurn(i, r, (turns - 1) * k, k);
      TurnsVisitEach(i, r, turns - 1, k);
    }
  }

  // ----- The counter walks around the available members -----

  lemma {:induction false} MulAtLeast(x: int, k: nat)
    requires x >= 1
    ensures x * k >= k
    decreases x
  {
    if x > 1 {
      MulAtLeast(x - 1, k);
      assert x * k == (x - 1) * k + k;
    }
  }

  lemma Distributes(q: int, p: int, k: int)
    ensures (q - p) * k == q * k - p * k
  {
  }

  lemma DivisionIdentity(a: nat, k: nat)
    requires k > 0
    ensures a == (a / k) * k + a % k && a % k < k
  {
  }

  lemma RemainderIsUnique(a: nat, k: nat, q: int, r: nat)
    requires a == q * k + r && r < k
    ensures a % k == r
  {
    DivisionIdentity(a, k);
    var p := a / k;
    Distributes(q, p, k);
    Distributes(p, q, k);
    if q > p {
      MulAtLeast(q - p, k);
    } else if q < p {
      MulAtLeast(p - q, k);
    }
  }

  lemma NextResidue(c: nat, k: nat)
    requires k > 0
    ensures (c + 1) % k == Succ(c % k, k)
  {
    DivisionIdentity(c, k);
    var q, r := c / k, c % k;
    if r + 1 < k {
      RemainderIsUnique(c + 1, k, q, r + 1);
    } else {
      assert (q + 1) * k == q * k + k;
      RemainderIsUnique(c + 1, k, q + 1, 0);
    }
  }

  predicate Distinct<T(==)>(xs: seq<T>) {
    forall i, j :: 0 <= i < j < |xs| ==> xs[i] != xs[j]
  }

  lemma {:induction false} AvailableDistinct(order: seq<NodeId>, members: map<NodeId, Member>)
    requires Distinct(order)
    ensures Distinct(Available(order, members))
  {
    if order != [] {
      AvailableDistinct(order[1..], members);
      assert order[0] !in Available(order[1..], members);
    }
  }

  lemma SelectStep(p: PoolState)
    requires Available(p.order, p.members) != [] && p.next + 1 < TWO64
    ensures var ids := Available(p.order, p.members);
            Select(p) == (p.(next := p.next + 1), Some(ids[(p.next + 1) % |ids|]))
  {
  }

  lemma {:induction false} PicksWalk(p: PoolState, n: nat, i: nat)
    requires Distinct(p.order) && i < |Available(p.order, p.members)| && p.next + n < TWO64
    ensures var ids := Available(p.order, p.members);
            && Count(Picks(p, n), Some(ids[i])) == Visits(i, p.next % |ids|, n, |ids|)
            && forall pick :: pick in Picks(p, n) ==> pick.Some? && pick.value in ids
    decreases n
  {
    var ids := Available(p.order, p.members);
    if n > 0 {
      SelectStep(p);
      var (p', pick) := Select(p);
      AvailableDistinct(p.order, p.members);
      NextResidue(p.next, |ids|);
      PicksWalk(p', n - 1, i);
      assert ([pick] + Picks(p', n - 1))[1..] == Picks(p', n - 1);
    }
  }

  /** While the available members stay the same and the counter does not wrap, every pick is
      healthy, connected and active, and any two of them are picked equally often up to one. */
  lemma SelectionIsFair(p: PoolState, n: nat, i: nat, j: nat)
    requires Distinct(p.order) && p.next + n < TWO64
    requires i < |Available(p.order, p.members)| && j < |Available(p.order, p.members)|
    ensures var ids := Available(p.order, p.members);
            && Count(Picks(p, n), Some(ids[i])) <= Count(Picks(p, n), Some(ids[j])) + 1
            && forall pick :: pick in Picks(p, n) ==>
                 pick.Some? && pick.value in p.members && Selectable(p.members[pick.value])
  {
    var ids := Available(p.order, p.members);
    PicksWalk(p, n, i);
    PicksWalk(p, n, j);
    WalkIsFair(i, j, p.next % |ids|, n, |ids|);
  }

  /** Any whole number of turns picks each available member exactly once a turn. */
  lemma TurnsPickEachOnce(p: PoolState, turns: nat, i: nat)
    requires Distinct(p.order) && i < |Available(p.order, p.members)|
    requires p.next + turns * |Available(p.order, p.members)| < TWO64
    ensures var ids := Available(p.order, p.members);
            Count(Picks(p, turns * |ids|), Some(ids[i])) == turns
  {
    var ids := Available(p.order, p.members);
    PicksWalk(p, turns * |ids|, i);
    TurnsVisitEach(i, p.next % |ids|, turns, |ids|);
  }
}
