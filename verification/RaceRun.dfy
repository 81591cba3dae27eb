/** Whole runs of the race: who acts at each pass, how often, and at what time. */
module RaceRun {
  import opened Wrappers
  import opened GaugeRace

  /** A run so far. `clock` is the time spent filling and `acts` counts each racer's turns;
      both are bookkeeping that the race itself never reads. */
  datatype Run = Run(g: seq<real>, clock: real, acts: seq<nat>, picks: seq<nat>)

  function Zeros(n: nat): (z: seq<nat>)
    ensures |z| == n && forall i :: 0 <= i < n ==> z[i] == 0
  {
    seq(n, _ => 0)
  }

  ghost predicate ValidRun(r: seq<Racer>, s: Run) {
    && ValidGauges(r, s.g) && |s.acts| == |r|
    && forall i :: 0 <= i < |s.picks| ==> s.picks[i] < |r|
  }

  /** The run at the moment the next racer is full. */
  ghost function Settled(r: seq<Racer>, s: Run): Run
    requires ValidRacers(r) && |s.g| == |r|
  {
    s.(g := Settle(r, s.g), clock := s.clock + Wait(r, s.g))
  }

  /** One pass: settle, let the next racer act, empty its gauge. */
  ghost function Pass(r: seq<Racer>, s: Run): (s': Run)
    requires ValidRacers(r) && ValidRun(r, s)
    ensures ValidRun(r, s')
  {
    SettleValid(r, s.g);
    match Next(r, s.g)
    case None => s
    case Some(i) =>
      Run(Settle(r, s.g)[i := 0.0], s.clock + Wait(r, s.g), s.acts[i := s.acts[i] + 1], s.picks + [i])
  }

  ghost function After(r: seq<Racer>, g: seq<real>, p: nat): (s: Run)
    requires ValidRacers(r) && ValidGauges(r, g)
    ensures ValidRun(r, s)
  {
    if p == 0 then Run(g, 0.0, Zeros(|r|), []) else Pass(r, After(r, g, p - 1))
  }

  // -- conservation -----------------------------------------------------------------

  /** What a racer has gained is what it has spent plus what it still holds; a racer that
      cannot move holds its opening gauge until, if that was full, it acts once. */
  ghost predicate Balance(r: seq<Racer>, g: seq<real>, s: Run, i: nat)
    requires |g| == |r| && ValidRun(r, s) && i < |r|
  {
    if Mover(r, i) then Even(s.acts[i], s.g[i], g[i], s.clock, r[i].spd)
    else
      || (s.acts[i] == 0 && s.g[i] == g[i])
      || (s.acts[i] == 1 && s.g[i] == 0.0 && g[i] == FULL && r[i].live && s.clock >= 0.0)
  }

  /** Gained so far equals spent plus held, for one moving racer. */
  ghost predicate Even(acts: nat, held: real, start: real, clock: real, spd: real) {
    acts as real * FULL + held == start + clock * spd
  }

  lemma EvenWait(acts: nat, held: real, held': real, start: real, clock: real, spd: real, wait: real)
    requires Even(acts, held, start, clock, spd) && held' == held + wait * spd
    ensures Even(acts, held', start, clock + wait, spd)
  {
    assert (clock + wait) * spd == clock * spd + wait * spd;
  }

  lemma EvenAct(acts: nat, start: real, clock: real, spd: real)
    requires Even(acts, FULL, start, clock, spd)
    ensures Even(acts + 1, 0.0, start, clock, spd)
  {
    assert (acts + 1) as real * FULL == acts as real * FULL + FULL;
  }

  lemma SettledValid(r: seq<Racer>, s: Run)
    requires ValidRacers(r) && ValidRun(r, s)
    ensures ValidRun(r, Settled(r, s)) && Settled(r, s).clock >= s.clock
  {
    SettleValid(r, s.g);
    SettleFills(r, s.g);
  }

  lemma GaugesOf(r: seq<Racer>, s: Run)
    requires ValidRun(r, s)
    ensures ValidGauges(r, s.g) && |s.g| == |r|
  {
  }

  lemma SettledEven(r: seq<Racer>, g: seq<real>, s: Run, i: nat)
    requires ValidRacers(r) && |g| == |r| && ValidRun(r, s) && i < |r| && Mover(r, i)
    requires Even(s.acts[i], s.g[i], g[i], s.clock, r[i].spd)
    ensures Even(s.acts[i], Settle(r, s.g)[i], g[i], s.clock + Wait(r, s.g), r[i].spd)
  {
    hide Settle, Wait, Even, ValidRacers, ValidGauges, Mover;
    GaugesOf(r, s);
    SettleOne(r, s.g, i);
    EvenWait(s.acts[i], s.g[i], Settle(r, s.g)[i], g[i], s.clock, r[i].spd, Wait(r, s.g));
  }

  lemma SettledBalance(r: seq<Racer>, g: seq<real>, s: Run, i: nat)
    requires ValidRacers(r) && |g| == |r| && ValidRun(r, s) && i < |r|
    requires s.clock >= 0.0 && Balance(r, g, s, i)
    ensures ValidRun(r, Settled(r, s)) && Balance(r, g, Settled(r, s), i)
    ensures Settled(r, s).clock >= s.clock
  {
    SettledValid(r, s);
    if Mover(r, i) {
      SettledEven(r, g, s, i);
    } else {
      SettleOne(r, s.g, i);
    }
  }

  lemma PassBalance(r: seq<Racer>, g: seq<real>, s: Run, i: nat)
    requires ValidRacers(r) && |g| == |r| && ValidRun(r, s) && i < |r|
    requires s.clock >= 0.0 && Balance(r, g, s, i)
    ensures Balance(r, g, Pass(r, s), i) && Pass(r, s).clock >= s.clock
  {
    SettledBalance(r, g, s, i);
    NextIsFull(r, s.g);
    var n := Next(r, s.g);
    if n.Some? && n.value == i && Mover(r, i) {
      EvenAct(s.acts[i], g[i], Settled(r, s).clock, r[i].spd);
    }
  }

  lemma {:induction false} Conserved(r: seq<Racer>, g: seq<real>, p: nat, i: nat)
    requires ValidRacers(r) && ValidGauges(r, g) && i < |r|
    ensures After(r, g, p).clock >= 0.0
    ensures Balance(r, g, After(r, g, p), i)
  {
    hide Pass;
    if p == 0 {
      assert 0.0 * r[i].spd == 0.0;
    } else {
      Conserved(r, g, p - 1, i);
      var s := After(r, g, p - 1);
      PassBalance(r, g, s, i);
      assert After(r, g, p) == Pass(r, s);
    }
  }

  // -- when a racer is due ----------------------------------------------------------

  /** A racer that will come round: it moves, or it opened full. */
  predicate CanAct(r: seq<Racer>, g: seq<real>, i: nat)
    requires |g| == |r| && i < |r|
  {
    r[i].live && (r[i].moves || g[i] >= FULL)
  }

  /** The time at which a racer first fills its gauge. */
  function Due(r: seq<Racer>, g: seq<real>, i: nat): real
    requires ValidRacers(r) && |g| == |r| && i < |r|
  {
    if g[i] >= FULL || !Mover(r, i) then 0.0 else Remaining(r, g, i)
  }

  /** The published order: time to fill, then rank. */
  predicate Sooner(r: seq<Racer>, g: seq<real>, i: nat, j: nat)
    requires ValidRacers(r) && |g| == |r| && i < |r| && j < |r|
  {
    Due(r, g, i) < Due(r, g, j) || (Due(r, g, i) == Due(r, g, j) && i != j && Leads(r, i, j))
  }

  lemma DueMover(r: seq<Racer>, g: seq<real>, i: nat)
    requires ValidRacers(r) && ValidGauges(r, g) && i < |r| && Mover(r, i)
    ensures Due(r, g, i) == Remaining(r, g, i) >= 0.0
  {
    DivLe(0.0, FULL - g[i], r[i].spd);
  }

  /** A racer holding at most a full gauge without having acted is not overdue. */
  lemma EvenWaiting(held: real, start: real, clock: real, spd: real)
    requires Even(0, held, start, clock, spd) && held <= FULL && spd >= 1.0
    ensures clock <= (FULL - start) / spd
    ensures clock == (FULL - start) / spd <==> held >= FULL
  {
    assert held == start + clock * spd;
    DivLe(clock, FULL - start, spd);
  }

  /** A racer that has not acted after a pass had not acted before it. */
  lemma WaitingEarlier(r: seq<Racer>, g: seq<real>, p: nat, w: nat)
    requires ValidRacers(r) && ValidGauges(r, g) && w < |r|
    requires After(r, g, p + 1).acts[w] == 0
    ensures After(r, g, p).acts[w] == 0
  {
    assert After(r, g, p + 1) == Pass(r, After(r, g, p));
  }

  lemma PassClock(r: seq<Racer>, g: seq<real>, p: nat)
    requires ValidRacers(r) && ValidGauges(r, g)
    ensures Next(r, After(r, g, p).g).Some? ==> After(r, g, p + 1).clock == Settled(r, After(r, g, p)).clock
    ensures Next(r, After(r, g, p).g).None? ==> After(r, g, p + 1) == After(r, g, p)
  {
    assert After(r, g, p + 1) == Pass(r, After(r, g, p));
  }

  /** While a racer that cannot move waits, somebody is full, so time stands still. */
  lemma NoWait(r: seq<Racer>, g: seq<real>, p: nat, w: nat)
    requires ValidRacers(r) && ValidGauges(r, g) && w < |r| && CanAct(r, g, w) && !Mover(r, w)
    requires After(r, g, p).acts[w] == 0
    ensures Settled(r, After(r, g, p)).clock == After(r, g, p).clock
  {
    Conserved(r, g, p, w);
    assert After(r, g, p).g[w] >= FULL;
  }

  /** A waiting racer that cannot move has been full from the start, so no time has passed. */
  lemma {:induction false} BlockedWaits(r: seq<Racer>, g: seq<real>, p: nat, w: nat)
    requires ValidRacers(r) && ValidGauges(r, g) && w < |r| && CanAct(r, g, w) && !Mover(r, w)
    requires After(r, g, p).acts[w] == 0
    ensures Settled(r, After(r, g, p)).clock == After(r, g, p).clock == 0.0
  {
    hide Pass, Settle, Settled, Wait, Next;
    NoWait(r, g, p, w);
    if p > 0 {
      WaitingEarlier(r, g, p - 1, w);
      PassClock(r, g, p - 1);
      BlockedWaits(r, g, p - 1, w);
    }
  }

  /** A racer that has not acted is not overdue, and is full exactly when it is due. */
  lemma NotOverdue(r: seq<Racer>, g: seq<real>, p: nat, w: nat)
    requires ValidRacers(r) && ValidGauges(r, g) && w < |r| && CanAct(r, g, w)
    requires After(r, g, p).acts[w] == 0
    ensures Settled(r, After(r, g, p)).clock <= Due(r, g, w)
    ensures Settled(r, After(r, g, p)).clock == Due(r, g, w) <==> Settled(r, After(r, g, p)).g[w] >= FULL
  {
    hide Pass, Wait, Settle, Even, Next;
    var s := After(r, g, p);
    Conserved(r, g, p, w);
    SettledBalance(r, g, s, w);
    if Mover(r, w) {
      DueMover(r, g, w);
      EvenWaiting(Settled(r, s).g[w], g[w], Settled(r, s).clock, r[w].spd);
    } else {
      BlockedWaits(r, g, p, w);
    }
  }

  lemma LeadsOneWay(r: seq<Racer>, i: nat, j: nat)
    requires i < |r| && j < |r|
    ensures Leads(r, i, j) || Leads(r, j, i)
    ensures Leads(r, i, j) && Leads(r, j, i) ==> i == j
  {
  }

  /** Whoever acts first among those still waiting was due sooner than all of them. */
  lemma FirstIsSooner(r: seq<Racer>, g: seq<real>, p: nat, v: nat, w: nat)
    requires ValidRacers(r) && ValidGauges(r, g) && v < |r| && w < |r| && v != w
    requires CanAct(r, g, v) && CanAct(r, g, w)
    requires After(r, g, p).acts[v] == 0 && After(r, g, p).acts[w] == 0
    requires Next(r, After(r, g, p).g) == Some(v)
    ensures Sooner(r, g, v, w)
  {
    NotOverdue(r, g, p, v);
    NotOverdue(r, g, p, w);
    NextIsFull(r, After(r, g, p).g);
  }

  // -- the queue of first acts ------------------------------------------------------

  /** The order of first appearance. */
  function FirstActs(picks: seq<nat>): (q: seq<nat>)
    ensures forall i :: i in q <==> i in picks
    ensures forall a, b :: 0 <= a < b < |q| ==> q[a] != q[b]
  {
    if picks == [] then []
    else
      var q := FirstActs(picks[..|picks| - 1]);
      var i := picks[|picks| - 1];
      assert picks == picks[..|picks| - 1] + [i];
      if i in q then q else q + [i]
  }

  lemma FirstActsSnoc(picks: seq<nat>, i: nat)
    ensures FirstActs(picks + [i]) == if i in picks then FirstActs(picks) else FirstActs(picks) + [i]
  {
    assert (picks + [i])[..|picks|] == picks;
  }

  /** A pass adds its racer to the queue unless it is there already. */
  lemma QueueStep(r: seq<Racer>, g: seq<real>, p: nat)
    requires ValidRacers(r) && ValidGauges(r, g)
    ensures FirstActs(After(r, g, p + 1).picks) ==
            var q := FirstActs(After(r, g, p).picks);
            match Next(r, After(r, g, p).g)
            case None => q
            case Some(i) => if i in q then q else q + [i]
  {
    var s := After(r, g, p);
    var n := Next(r, s.g);
    if n.Some? {
      FirstActsSnoc(s.picks, n.value);
    }
  }

  ghost predicate PicksAgree(r: seq<Racer>, g: seq<real>, s: Run, i: nat)
    requires |g| == |r| && ValidRun(r, s) && i < |r|
  {
    && (s.acts[i] > 0 <==> i in s.picks)
    && (i in s.picks ==> CanAct(r, g, i))
  }

  lemma PickAgrees(r: seq<Racer>, g: seq<real>, s: Run, i: nat)
    requires ValidRacers(r) && ValidGauges(r, g) && ValidRun(r, s) && i < |r|
    requires Balance(r, g, s, i) && PicksAgree(r, g, s, i)
    ensures PicksAgree(r, g, Pass(r, s), i)
  {
    NextIsFull(r, s.g);
    SettleOne(r, s.g, i);
  }

  /** A racer has acted exactly when the run picked it, and only racers that can act do. */
  lemma {:induction false} ActedIffPicked(r: seq<Racer>, g: seq<real>, p: nat, i: nat)
    requires ValidRacers(r) && ValidGauges(r, g) && i < |r|
    ensures PicksAgree(r, g, After(r, g, p), i)
  {
    hide Pass;
    if p > 0 {
      ActedIffPicked(r, g, p - 1, i);
      Conserved(r, g, p - 1, i);
      PickAgrees(r, g, After(r, g, p - 1), i);
      assert After(r, g, p) == Pass(r, After(r, g, p - 1));
    }
  }

  ghost predicate SortedPrefix(r: seq<Racer>, g: seq<real>, q: seq<nat>)
    requires ValidRacers(r) && |g| == |r|
  {
    && (forall a :: 0 <= a < |q| ==> q[a] < |r| && CanAct(r, g, q[a]))
    && (forall a, b :: 0 <= a < b < |q| ==> Sooner(r, g, q[a], q[b]))
    && (forall a, w :: 0 <= a < |q| && 0 <= w < |r| && CanAct(r, g, w) && w !in q ==> Sooner(r, g, q[a], w))
  }

  lemma SortedSnoc(r: seq<Racer>, g: seq<real>, q: seq<nat>, v: nat)
    requires ValidRacers(r) && |g| == |r| && v < |r| && CanAct(r, g, v) && v !in q
    requires SortedPrefix(r, g, q)
    requires forall w :: 0 <= w < |r| && w != v && CanAct(r, g, w) && w !in q ==> Sooner(r, g, v, w)
    ensures SortedPrefix(r, g, q + [v])
  {
    var q' := q + [v];
    forall a, b | 0 <= a < b < |q'| ensures Sooner(r, g, q'[a], q'[b]) {
      assert q'[a] == q[a];
    }
    forall a, w | 0 <= a < |q'| && 0 <= w < |r| && CanAct(r, g, w) && w !in q' ensures Sooner(r, g, q'[a], w) {
      assert w !in q && w != v;
    }
  }

  /** The next racer to act is sooner than every racer still waiting behind it. */
  lemma NextIsSooner(r: seq<Racer>, g: seq<real>, p: nat, v: nat)
    requires ValidRacers(r) && ValidGauges(r, g) && v < |r|
    requires Next(r, After(r, g, p).g) == Some(v) && v !in After(r, g, p).picks
    ensures CanAct(r, g, v)
    ensures forall w :: 0 <= w < |r| && w != v && CanAct(r, g, w) && w !in After(r, g, p).picks ==> Sooner(r, g, v, w)
  {
    hide After, Next, Sooner;
    ActedIffPicked(r, g, p, v);
    ActedIffPicked(r, g, p + 1, v);
    PickedNext(r, g, p, v);
    forall w | 0 <= w < |r| && w != v && CanAct(r, g, w) && w !in After(r, g, p).picks
      ensures Sooner(r, g, v, w)
    {
      ActedIffPicked(r, g, p, w);
      FirstIsSooner(r, g, p, v, w);
    }
  }

  lemma PickedNext(r: seq<Racer>, g: seq<real>, p: nat, v: nat)
    requires ValidRacers(r) && ValidGauges(r, g) && v < |r| && Next(r, After(r, g, p).g) == Some(v)
    ensures v in After(r, g, p + 1).picks
  {
    hide Next, Settle;
    assert After(r, g, p + 1) == Pass(r, After(r, g, p));
  }

  lemma SortedStep(r: seq<Racer>, g: seq<real>, p: nat)
    requires ValidRacers(r) && ValidGauges(r, g)
    requires SortedPrefix(r, g, FirstActs(After(r, g, p).picks))
    ensures SortedPrefix(r, g, FirstActs(After(r, g, p + 1).picks))
  {
    hide Pass;
    QueueStep(r, g, p);
    var q := FirstActs(After(r, g, p).picks);
    var q' := FirstActs(After(r, g, p + 1).picks);
    var n := Next(r, After(r, g, p).g);
    if n.Some? && n.value !in q {
      NextIsSooner(r, g, p, n.value);
      SortedSnoc(r, g, q, n.value);
      assert q' == q + [n.value];
    } else {
      assert q' == q;
    }
  }

  lemma NobodyActed(r: seq<Racer>, g: seq<real>)
    requires ValidRacers(r) && ValidGauges(r, g)
    ensures SortedPrefix(r, g, FirstActs(After(r, g, 0).picks))
  {
    assert FirstActs([]) == [];
  }

  /** THE RACE IS A SORT: the first acts of any run are an initial segment of the racers that
      can act, sorted by time to fill and then rank, however often fast racers lap slow ones. */
  lemma {:induction false} RaceIsSort(r: seq<Racer>, g: seq<real>, p: nat)
    requires ValidRacers(r) && ValidGauges(r, g)
    ensures SortedPrefix(r, g, FirstActs(After(r, g, p).picks))
  {
    hide *;
    if p > 0 {
      RaceIsSort(r, g, p - 1);
      SortedStep(r, g, p - 1);
    } else {
      NobodyActed(r, g);
    }
  }
}
