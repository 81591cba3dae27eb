/** The published turn queue: what it holds, when it is complete, and why it comes true. */
module Projection {
  import opened Wrappers
  import opened GaugeRace
  import opened RaceRun
  import opened RaceCount

  // -- the size of the field --------------------------------------------------------

  function LiveCount(r: seq<Racer>): nat {
    if r == [] then 0 else LiveCount(r[..|r| - 1]) + if r[|r| - 1].live then 1 else 0
  }

  ghost function LiveSet(r: seq<Racer>): set<nat> {
    set i: nat | i < |r| && r[i].live
  }

  lemma LiveSetSnoc(r: seq<Racer>)
    requires r != []
    ensures var n := |r| - 1; LiveSet(r) == if r[n].live then LiveSet(r[..n]) + {n} else LiveSet(r[..n])
  {
  }

  lemma {:induction false} LiveSetSize(r: seq<Racer>)
    ensures |LiveSet(r)| == LiveCount(r)
  {
    if r == [] {
      assert LiveSet(r) == {};
    } else {
      var n := |r| - 1;
      LiveSetSize(r[..n]);
      LiveSetSnoc(r);
      assert n !in LiveSet(r[..n]);
    }
  }

  ghost function ToSet(q: seq<nat>): set<nat> {
    set i | i in q
  }

  lemma {:induction false} DistinctSize(q: seq<nat>)
    requires forall a, b :: 0 <= a < b < |q| ==> q[a] != q[b]
    ensures |ToSet(q)| == |q|
  {
    if q != [] {
      var n := |q| - 1;
      DistinctSize(q[..n]);
      assert q[n] !in ToSet(q[..n]);
      assert ToSet(q) == ToSet(q[..n]) + {q[n]};
    }
  }

  /** Passes allowed to the projection: one lap of the field per entry, and one lap more. */
  function Budget(r: seq<Racer>): nat {
    LiveCount(r) * LiveCount(r) + LiveCount(r)
  }

  /** The queue of `p` passes, as positions in the field. */
  ghost function Queue(r: seq<Racer>, g: seq<real>, p: nat): (q: seq<nat>)
    requires ValidRacers(r) && ValidGauges(r, g)
  {
    FirstActs(After(r, g, p).picks)
  }

  ghost function Published(r: seq<Racer>, g: seq<real>): seq<nat>
    requires ValidRacers(r) && ValidGauges(r, g)
  {
    Queue(r, g, Budget(r))
  }

  /** THE PUBLISHED QUEUE IS A SORT: it has no repeats, holds only units that can act, is sorted
      by time to fill and then rank, and leaves out nobody sooner than somebody it holds. */
  lemma PublishedIsSorted(r: seq<Racer>, g: seq<real>)
    requires ValidRacers(r) && ValidGauges(r, g)
    ensures SortedPrefix(r, g, Published(r, g))
    ensures forall a, b :: 0 <= a < b < |Published(r, g)| ==> Published(r, g)[a] != Published(r, g)[b]
  {
    RaceIsSort(r, g, Budget(r));
  }

  /** WHO IS PUBLISHED, EXACTLY: a unit that can act is in the queue if and only if its turn
      number, computed from the gauges and speeds, is within the budget. */
  lemma PublishedIff(r: seq<Racer>, g: seq<real>, w: nat)
    requires ValidRacers(r) && ValidGauges(r, g) && w < |r| && CanAct(r, g, w)
    ensures w in Published(r, g) <==> Turn(r, g, w) <= Budget(r)
  {
    QueuedIff(r, g, Budget(r), w);
  }

  lemma {:induction false} QueueHead(r: seq<Racer>, g: seq<real>, p: nat)
    requires ValidRacers(r) && ValidGauges(r, g) && SomeoneFull(r, g) && p >= 1
    ensures Next(r, g) == Head(r, g) && Head(r, g).Some?
    ensures Queue(r, g, p) != [] && Queue(r, g, p)[0] == Head(r, g).value
  {
    hide Pass;
    NextIsFull(r, g);
    QueueStep(r, g, p - 1);
    if p > 1 {
      QueueHead(r, g, p - 1);
    } else {
      assert After(r, g, p - 1).g == g;
    }
  }

  /** Whoever stands full and ranks first. */
  function Head(r: seq<Racer>, g: seq<real>): (b: Option<nat>)
    requires |g| == |r|
    ensures b.Some? ==> b.value < |r|
  {
    Best(r, FullMask(r, g), |r|)
  }

  // -- stopping early ---------------------------------------------------------------

  lemma {:induction false} StalledStays(r: seq<Racer>, g: seq<real>, p: nat, k: nat)
    requires ValidRacers(r) && ValidGauges(r, g) && Stalled(r, g, p)
    ensures After(r, g, p + k) == After(r, g, p)
  {
    hide After, Next;
    if k > 0 {
      StalledStays(r, g, p, k - 1);
      PassClock(r, g, p + (k - 1));
      assert p + k == p + (k - 1) + 1;
    }
  }

  /** As many distinct living positions as there are living positions is all of them. */
  lemma Pigeonhole(r: seq<Racer>, q: seq<nat>, i: nat)
    requires forall a, b :: 0 <= a < b < |q| ==> q[a] != q[b]
    requires ToSet(q) <= LiveSet(r)
    requires |q| == LiveCount(r) && i < |r| && r[i].live
    ensures i in q
  {
    DistinctSize(q);
    LiveSetSize(r);
    hide LiveSet;
    if i !in ToSet(q) {
      SubsetSize(ToSet(q) + {i}, LiveSet(r));
    }
  }

  /** A queue as long as the field holds every living unit. */
  lemma FullQueueHoldsAll(r: seq<Racer>, g: seq<real>, p: nat, i: nat)
    requires ValidRacers(r) && ValidGauges(r, g)
    requires |Queue(r, g, p)| == LiveCount(r) && i < |r| && r[i].live
    ensures i in Queue(r, g, p)
  {
    hide Pass, Sooner;
    RaceIsSort(r, g, p);
    assert ToSet(Queue(r, g, p)) <= LiveSet(r);
    Pigeonhole(r, Queue(r, g, p), i);
  }

  lemma {:induction false} SubsetSize(s: set<nat>, t: set<nat>)
    requires s <= t
    ensures |s| <= |t|
  {
    assert t == s + (t - s);
  }

  /** A complete queue stays as it is. */
  lemma {:induction false} FullQueueStays(r: seq<Racer>, g: seq<real>, p: nat, k: nat)
    requires ValidRacers(r) && ValidGauges(r, g) && |Queue(r, g, p)| == LiveCount(r)
    ensures Queue(r, g, p + k) == Queue(r, g, p)
  {
    hide Settle, Next, Pass;
    if k > 0 {
      FullQueueStays(r, g, p, k - 1);
      NextIsLive(r, g, p + (k - 1));
      FullQueueStep(r, g, p + (k - 1));
      assert p + k == p + (k - 1) + 1;
    }
  }

  lemma NextIsLive(r: seq<Racer>, g: seq<real>, p: nat)
    requires ValidRacers(r) && ValidGauges(r, g)
    ensures Next(r, After(r, g, p).g).Some? ==> r[Next(r, After(r, g, p).g).value].live
  {
    NextIsFull(r, After(r, g, p).g);
  }

  lemma FullQueueStep(r: seq<Racer>, g: seq<real>, p: nat)
    requires ValidRacers(r) && ValidGauges(r, g) && |Queue(r, g, p)| == LiveCount(r)
    ensures Queue(r, g, p + 1) == Queue(r, g, p)
  {
    hide Settle, Pass;
    QueueStep(r, g, p);
    var n := Next(r, After(r, g, p).g);
    if n.Some? {
      NextIsLive(r, g, p);
      FullQueueHoldsAll(r, g, p, n.value);
    }
  }

  // -- the budget -------------------------------------------------------------------

  /** An upper bound on the turns before `w` acts that needs only the speeds. */
  function PatienceOf(r: seq<Racer>, v: nat, w: nat): nat
    requires ValidRacers(r) && v < |r| && w < |r|
  {
    if !r[v].live then 0
    else if v == w then 1
    else
      FloorDiv(r[v].spd, r[w].spd) + 1
  }

  function FloorDiv(a: real, b: real): nat
    requires a >= 1.0 && b >= 1.0
  {
    assert a / b >= 0.0 by { DivLe(0.0, a, b); }
    (a / b).Floor
  }

  function Patience(r: seq<Racer>, w: nat): nat
    requires ValidRacers(r) && w < |r|
  {
    Sum(seq(|r|, v requires 0 <= v < |r| => PatienceOf(r, v, w)))
  }

  /** Before a full gauge's worth of `w`'s time is up, `v` collects at most one gauge more
      than the ratio of their speeds. */
  lemma CollectedInTime(start: real, due: real, vs: real, ws: real, inclusive: bool)
    requires 0.0 <= start <= FULL && vs >= 1.0 && ws >= 1.0 && 0.0 <= due <= FULL / ws
    ensures Collected(start, due, vs, inclusive) <= FloorDiv(vs, ws) + 1
  {
    DivLe(due, FULL, ws);
    var x := (start + due * vs) / FULL;
    DueRatio(due, vs, ws);
    assert x <= 1.0 + vs / ws;
    assert x.Floor <= (1.0 + vs / ws).Floor == 1 + (vs / ws).Floor;
  }

  lemma DueRatio(due: real, vs: real, ws: real)
    requires vs >= 1.0 && ws >= 1.0 && 0.0 <= due && due * ws <= FULL
    ensures due * vs <= FULL * (vs / ws)
  {
    var q := vs / ws;
    assert q * ws == vs;
    assert q >= 0.0 by { DivLe(0.0, vs, ws); }
    assert due * vs == (due * ws) * q;
  }

  lemma ShareWithinPatience(r: seq<Racer>, g: seq<real>, v: nat, w: nat)
    requires ValidRacers(r) && ValidGauges(r, g) && v < |r| && w < |r| && CanAct(r, g, w)
    ensures UpTo(r, g, v, w) <= PatienceOf(r, v, w)
  {
    if v == w {
      OwnShare(r, g, w);
    } else if Mover(r, v) {
      DueInTime(r, g, w);
      hide Collected, Due, FloorDiv;
      CollectedInTime(g[v], Due(r, g, w), r[v].spd, r[w].spd, Leads(r, v, w));
    }
  }

  lemma DueInTime(r: seq<Racer>, g: seq<real>, w: nat)
    requires ValidRacers(r) && ValidGauges(r, g) && w < |r|
    ensures 0.0 <= Due(r, g, w) <= FULL / r[w].spd
  {
    var s := r[w].spd;
    DivLe(0.0, FULL - g[w], s);
    DivLe(0.0, FULL, s);
    DivLe((FULL - g[w]) / s, FULL - g[w], s);
    DivLe((FULL - g[w]) / s, FULL, s);
  }

  /** NO STARVATION: whatever the gauges, a unit that can act does so within its patience. */
  lemma TurnWithinPatience(r: seq<Racer>, g: seq<real>, w: nat)
    requires ValidRacers(r) && ValidGauges(r, g) && w < |r| && CanAct(r, g, w)
    ensures Turn(r, g, w) <= Patience(r, w)
  {
    var p := seq(|r|, v requires 0 <= v < |r| => PatienceOf(r, v, w));
    forall v | 0 <= v < |r| ensures UpTos(r, g, w)[v] <= p[v] {
      ShareWithinPatience(r, g, v, w);
    }
    SumMonotone(UpTos(r, g, w), p);
  }

  function CapOf(r: seq<Racer>, v: nat, w: nat, k: nat): nat
    requires v < |r|
  {
    if !r[v].live then 0 else if v == w then 1 else k
  }

  function Caps(r: seq<Racer>, w: nat, k: nat, m: nat): (c: seq<nat>)
    requires m <= |r|
    ensures |c| == m
  {
    seq(m, v requires 0 <= v < m => CapOf(r, v, w, k))
  }

  lemma {:induction false} CapsSum(r: seq<Racer>, w: nat, k: nat, m: nat)
    requires m <= |r| && (w < |r| ==> r[w].live)
    ensures Sum(Caps(r, w, k, m)) == if w < m then 1 + k * (LiveCount(r[..m]) - 1) else k * LiveCount(r[..m])
  {
    if m > 0 {
      CapsSum(r, w, k, m - 1);
      assert Caps(r, w, k, m)[..m - 1] == Caps(r, w, k, m - 1);
      assert r[..m][..m - 1] == r[..m - 1];
      Distribute(k, LiveCount(r[..m - 1]));
    }
  }

  lemma Distribute(k: nat, n: nat)
    ensures k * (n + 1) == k * n + k
  {
  }

  lemma CapBudget(n: nat)
    requires n >= 1
    ensures 1 + (n + 2) * (n - 1) <= n * n + n
  {
  }

  /** No living unit is `LiveCount + 2` or more times as fast as `w`. */
  predicate NotOutpaced(r: seq<Racer>, w: nat)
    requires w < |r|
  {
    forall v :: 0 <= v < |r| && r[v].live ==> r[v].spd < (LiveCount(r) + 2) as real * r[w].spd
  }

  lemma FloorBelow(a: real, b: real, k: nat)
    requires a >= 1.0 && b >= 1.0 && a < (k + 1) as real * b
    ensures FloorDiv(a, b) <= k
  {
    DivLe((k + 1) as real, a, b);
  }

  lemma PatienceCapped(r: seq<Racer>, v: nat, w: nat)
    requires ValidRacers(r) && v < |r| && w < |r| && NotOutpaced(r, w)
    ensures PatienceOf(r, v, w) <= CapOf(r, v, w, LiveCount(r) + 2)
  {
    hide FloorDiv, LiveCount;
    if r[v].live && v != w {
      FloorBelow(r[v].spd, r[w].spd, LiveCount(r) + 1);
    }
  }

  /** THE BUDGET IS AMPLE under a bound on the speeds: a unit that can act is published
      whenever no living unit is more than `LiveCount + 1` full times as fast. */
  lemma BudgetSuffices(r: seq<Racer>, g: seq<real>, w: nat)
    requires ValidRacers(r) && ValidGauges(r, g) && w < |r| && CanAct(r, g, w) && NotOutpaced(r, w)
    ensures w in Published(r, g)
  {
    var n := LiveCount(r);
    var p := seq(|r|, v requires 0 <= v < |r| => PatienceOf(r, v, w));
    var c := Caps(r, w, n + 2, |r|);
    forall v | 0 <= v < |r| ensures p[v] <= c[v] {
      PatienceCapped(r, v, w);
    }
    SumMonotone(p, c);
    CapsSum(r, w, n + 2, |r|);
    assert r[..|r|] == r;
    LiveSetSize(r);
    assert w in LiveSet(r);
    CapBudget(n);
    TurnWithinPatience(r, g, w);
    PublishedIff(r, g, w);
  }

  /** Without that bound the budget is not ample: a unit a hundred times slower than its one
      rival never appears in the queue, though nothing blocks it. */
  lemma BudgetCanFail()
    ensures var r := [Racer(true, true, 100.0, 1, 0), Racer(true, true, 1.0, 2, 0)];
            ValidRacers(r) && ValidGauges(r, [0.0, 0.0]) && CanAct(r, [0.0, 0.0], 1) && 1 !in Published(r, [0.0, 0.0])
  {
    var r := [Racer(true, true, 100.0, 1, 0), Racer(true, true, 1.0, 2, 0)];
    var g := [0.0, 0.0];
    assert Due(r, g, 1) == 100.0;
    assert UpTo(r, g, 0, 1) == 100;
    assert UpTos(r, g, 1)[..1] == [100];
    assert Turn(r, g, 1) >= 100;
    assert r[..1] == [r[0]];
    assert LiveCount(r) == 2;
    PublishedIff(r, g, 1);
  }

  // -- the turns that are really taken ----------------------------------------------

  /** The real race: gauges that stand settled, and whoever heads them acts. */
  datatype Play = Play(g: seq<real>, heads: seq<nat>)

  /** A turn: the head spends its gauge, and the gauges run on to the next full one. */
  function TakeTurn(r: seq<Racer>, g: seq<real>): (g': seq<real>)
    requires ValidRacers(r) && |g| == |r|
    ensures |g'| == |r|
  {
    match Head(r, g)
    case None => g
    case Some(i) => Settle(r, g[i := 0.0])
  }

  ghost function Played(r: seq<Racer>, g: seq<real>, k: nat): (s: Play)
    requires ValidRacers(r) && |g| == |r|
    ensures |s.g| == |r|
  {
    if k == 0 then Play(Settle(r, g), [])
    else
      var s := Played(r, g, k - 1);
      match Head(r, s.g)
      case None => s
      case Some(i) => Play(TakeTurn(r, s.g), s.heads + [i])
  }

  /** The real turns are the passes of the simulated race, one for one. */
  lemma {:induction false} PlayedAsProjected(r: seq<Racer>, g: seq<real>, k: nat)
    requires ValidRacers(r) && ValidGauges(r, g)
    ensures Played(r, g, k).g == Settle(r, After(r, g, k).g)
    ensures Played(r, g, k).heads == After(r, g, k).picks
  {
    hide Settle, FullMask;
    if k > 0 {
      PlayedAsProjected(r, g, k - 1);
      var s := After(r, g, k - 1);
      assert After(r, g, k) == Pass(r, s);
      assert Head(r, Settle(r, s.g)) == Next(r, s.g);
    }
  }

  /** THE PROJECTION COMES TRUE: the units that first act over the next turns, in that order,
      are exactly the published queue. */
  lemma ProjectionComesTrue(r: seq<Racer>, g: seq<real>)
    requires ValidRacers(r) && ValidGauges(r, g)
    ensures FirstActs(Played(r, g, Budget(r)).heads) == Published(r, g)
  {
    PlayedAsProjected(r, g, Budget(r));
  }

  // -- fairness ---------------------------------------------------------------------

  lemma EvenGap(ua: nat, ub: nat, uh: real, us: real, start: real, t1: real, t2: real)
    requires Even(ua, 0.0, start, t1, us) && Even(ub, uh, start, t2, us) && us >= 1.0
    requires (ub == ua && uh <= FULL) || (ub == ua + 1 && uh == 0.0)
    ensures (t2 - t1) * us <= FULL
  {
    assert (t2 - t1) * us == t2 * us - t1 * us;
  }

  lemma EvenGain(va: nat, vb: nat, h1: real, h2: real, vs: real, start: real, t1: real, t2: real)
    requires Even(va, h1, start, t1, vs) && Even(vb, h2, start, t2, vs)
    requires h1 <= FULL && h2 >= 0.0
    ensures vb as real * FULL <= va as real * FULL + FULL + (t2 - t1) * vs
  {
    assert (t2 - t1) * vs == t2 * vs - t1 * vs;
  }

  lemma GainBounded(va: nat, vb: nat, gap: real, vs: real, us: real)
    requires vs >= 1.0 && us >= 1.0 && 0.0 <= gap && gap * us <= FULL
    requires vb as real * FULL <= va as real * FULL + FULL + gap * vs
    ensures vb <= va + 1 + FloorDiv(vs, us)
  {
    DueRatio(gap, vs, us);
    assert (vb - va) as real <= 1.0 + vs / us;
  }

  /** From one action of `u` until just after its next, `v` gains at most one action more
      than the whole number of times it is faster. */
  lemma FairMovers(r: seq<Racer>, g: seq<real>, p1: nat, p2: nat, u: nat, v: nat)
    requires ValidRacers(r) && ValidGauges(r, g) && u < |r| && v < |r| && Mover(r, u) && Mover(r, v) && p1 <= p2
    requires After(r, g, p1).g[u] == 0.0
    requires After(r, g, p2).acts[u] == After(r, g, p1).acts[u]
          || (After(r, g, p2).acts[u] == After(r, g, p1).acts[u] + 1 && After(r, g, p2).g[u] == 0.0)
    ensures After(r, g, p2).acts[v] <= After(r, g, p1).acts[v] + 1 + FloorDiv(r[v].spd, r[u].spd)
  {
    hide Pass, FloorDiv, Even;
    var s1, s2 := After(r, g, p1), After(r, g, p2);
    Conserved(r, g, p1, u);
    Conserved(r, g, p2, u);
    Conserved(r, g, p1, v);
    Conserved(r, g, p2, v);
    ClockRuns(r, g, p1, p2);
    EvenGap(s1.acts[u], s2.acts[u], s2.g[u], r[u].spd, g[u], s1.clock, s2.clock);
    EvenGain(s1.acts[v], s2.acts[v], s1.g[v], s2.g[v], r[v].spd, g[v], s1.clock, s2.clock);
    GainBounded(s1.acts[v], s2.acts[v], s2.clock - s1.clock, r[v].spd, r[u].spd);
  }

  lemma CountStepOf(r: seq<Racer>, s: Run, v: nat)
    requires ValidRacers(r) && ValidRun(r, s) && v < |r|
    requires s.acts[v] == multiset(s.picks)[v]
    ensures Pass(r, s).acts[v] == multiset(Pass(r, s).picks)[v]
  {
    hide Settle, Next;
  }

  /** The tally of a racer is the number of times it was picked. */
  lemma {:induction false} ActsCount(r: seq<Racer>, g: seq<real>, p: nat, v: nat)
    requires ValidRacers(r) && ValidGauges(r, g) && v < |r|
    ensures After(r, g, p).acts[v] == multiset(After(r, g, p).picks)[v]
  {
    hide Pass;
    if p > 0 {
      ActsCount(r, g, p - 1, v);
      CountStepOf(r, After(r, g, p - 1), v);
    }
  }

  /** A longer run only adds picks, and whoever was picked last stands at zero. */
  lemma {:induction false} PicksGrow(r: seq<Racer>, g: seq<real>, p: nat, p2: nat)
    requires ValidRacers(r) && ValidGauges(r, g) && p <= p2 && |After(r, g, p2).picks| == p2
    ensures After(r, g, p).picks == After(r, g, p2).picks[..p]
    ensures p > 0 ==> After(r, g, p).picks[p - 1] < |r| && After(r, g, p).g[After(r, g, p).picks[p - 1]] == 0.0
  {
    hide Pass, Next;
    if p2 > 0 {
      TurnsAddUp(r, g, p2 - 1);
      var s := After(r, g, p2 - 1);
      assert After(r, g, p2) == Pass(r, s);
      PassPicks(r, s);
      if p < p2 {
        PicksGrow(r, g, p, p2 - 1);
      }
    }
  }

  lemma PassPicks(r: seq<Racer>, s: Run)
    requires ValidRacers(r) && ValidRun(r, s)
    ensures s.picks <= Pass(r, s).picks && |Pass(r, s).picks| <= |s.picks| + 1
    ensures |Pass(r, s).picks| > |s.picks| ==> Pass(r, s).g[Pass(r, s).picks[|s.picks|]] == 0.0
  {
    hide Settle, Next;
  }

  lemma FairPicks(r: seq<Racer>, g: seq<real>, p1: nat, p2: nat, u: nat, v: nat)
    requires ValidRacers(r) && ValidGauges(r, g) && u < |r| && v < |r| && Mover(r, u) && Mover(r, v) && p1 <= p2
    requires After(r, g, p1).g[u] == After(r, g, p2).g[u] == 0.0
    requires |After(r, g, p2).picks| == p2
    requires After(r, g, p1).picks == After(r, g, p2).picks[..p1]
    requires multiset(After(r, g, p2).picks[p1..p2])[u] == 1
    ensures multiset(After(r, g, p2).picks[p1..p2])[v] <= 1 + FloorDiv(r[v].spd, r[u].spd)
  {
    hide Pass, FloorDiv, Even;
    var h := After(r, g, p2).picks;
    ActsCount(r, g, p1, u);
    ActsCount(r, g, p2, u);
    ActsCount(r, g, p1, v);
    ActsCount(r, g, p2, v);
    CountBetween(h, p1, p2, u);
    CountBetween(h, p1, p2, v);
    FairMovers(r, g, p1, p2, u, v);
  }

  /** FAIRNESS: in the real turns, between an action of `u` and its next one, `v` acts at most
      once more than the whole number of times it is faster than `u`. */
  lemma Fairness(r: seq<Racer>, g: seq<real>, p1: nat, p2: nat, u: nat, v: nat)
    requires ValidRacers(r) && ValidGauges(r, g) && u < |r| && v < |r| && Mover(r, u) && Mover(r, v)
    requires 0 < p1 < p2 == |Played(r, g, p2).heads|
    requires var h := Played(r, g, p2).heads; h[p1 - 1] == h[p2 - 1] == u && u !in h[p1..p2 - 1]
    ensures multiset(Played(r, g, p2).heads[p1..p2])[v] <= 1 + FloorDiv(r[v].spd, r[u].spd)
  {
    hide Pass, FloorDiv, Settle;
    PlayedAsProjected(r, g, p2);
    PicksGrow(r, g, p1, p2);
    PicksGrow(r, g, p2, p2);
    CountOnce(After(r, g, p2).picks[p1..p2], u);
    FairPicks(r, g, p1, p2, u, v);
  }

  lemma CountBetween(h: seq<nat>, p1: nat, p2: nat, v: nat)
    requires p1 <= p2 == |h|
    ensures multiset(h)[v] == multiset(h[..p1])[v] + multiset(h[p1..p2])[v]
  {
    assert h == h[..p1] + h[p1..p2];
  }

  lemma CountOnce(h: seq<nat>, u: nat)
    requires h != [] && h[|h| - 1] == u && u !in h[..|h| - 1]
    ensures multiset(h)[u] == 1
  {
    assert h == h[..|h| - 1] + [u];
  }

  lemma PassOn(r: seq<Racer>, s: Run, t: Run, before: seq<nat>)
    requires ValidRacers(r) && ValidRun(r, s) && ValidRun(r, t) && s.g == t.g && s.picks == before + t.picks
    ensures Pass(r, s).g == Pass(r, t).g && Pass(r, s).picks == before + Pass(r, t).picks
  {
    hide Settle, Next;
  }

  /** A run goes on from where it stands as a fresh run would. */
  lemma {:induction false} RunsOn(r: seq<Racer>, g: seq<real>, p: nat, k: nat)
    requires ValidRacers(r) && ValidGauges(r, g)
    ensures After(r, g, p + k).g == After(r, After(r, g, p).g, k).g
    ensures After(r, g, p + k).picks == After(r, g, p).picks + After(r, After(r, g, p).g, k).picks
  {
    hide Pass;
    if k > 0 {
      RunsOn(r, g, p, k - 1);
      assert p + k - 1 == p + (k - 1);
      PassOn(r, After(r, g, p + (k - 1)), After(r, After(r, g, p).g, k - 1), After(r, g, p).picks);
    }
  }

  lemma ActsInTime(r: seq<Racer>, g: seq<real>, w: nat)
    requires ValidRacers(r) && ValidGauges(r, g) && w < |r| && CanAct(r, g, w)
    ensures w in After(r, g, Patience(r, w)).picks
  {
    hide Pass, Patience, Turn;
    TurnWithinPatience(r, g, w);
    QueuedIff(r, g, Patience(r, w), w);
  }

  lemma LaterPart(h: seq<nat>, h1: seq<nat>, h2: seq<nat>)
    requires h == h1 + h2
    ensures h[|h1|..] == h2
  {
  }

  /** NO STARVATION over whole runs: from any turn on, a unit that moves acts again within
      its patience, a number computed from the speeds alone. */
  lemma NoStarvation(r: seq<Racer>, g: seq<real>, p: nat, w: nat)
    requires ValidRacers(r) && ValidGauges(r, g) && w < |r| && Mover(r, w)
    ensures |Played(r, g, p).heads| <= |Played(r, g, p + Patience(r, w)).heads|
    ensures w in Played(r, g, p + Patience(r, w)).heads[|Played(r, g, p).heads|..]
  {
    hide Pass, Patience, Settle;
    var k := Patience(r, w);
    PlayedAsProjected(r, g, p);
    PlayedAsProjected(r, g, p + k);
    RunsOn(r, g, p, k);
    ActsInTime(r, After(r, g, p).g, w);
    LaterPart(After(r, g, p + k).picks, After(r, g, p).picks, After(r, After(r, g, p).g, k).picks);
  }

  lemma {:induction false} ClockRuns(r: seq<Racer>, g: seq<real>, p1: nat, p2: nat)
    requires ValidRacers(r) && ValidGauges(r, g) && p1 <= p2
    ensures After(r, g, p1).clock <= After(r, g, p2).clock
  {
    hide Pass, Next;
    if p1 < p2 {
      ClockRuns(r, g, p1, p2 - 1);
      PassClock(r, g, p2 - 1);
      SettleFills(r, After(r, g, p2 - 1).g);
    }
  }
}
