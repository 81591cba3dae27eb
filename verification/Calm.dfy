/** A battle whose gauges nothing disturbs: no blocks, no passive, and no status that bends SPD and
    wears off. Units may still be held from acting, and may die of damage over time. */
module Calm {
  import opened GaugeRace
  import opened Projection
  import opened Units
  import opened TurnQueue
  import opened Turns

  /** Does not block; and if it can wear off, it does not bend SPD. */
  predicate CalmStatus(st: Active) {
    !st.blocks && (st.remaining.Some? ==> st.spdPct == 0.0)
  }

  predicate CalmStatuses(ss: seq<Active>) {
    forall k :: 0 <= k < |ss| ==> CalmStatus(ss[k])
  }

  predicate CalmField(us: seq<UnitState>) {
    forall i :: 0 <= i < |us| && Alive(us[i]) ==> CalmStatuses(us[i].statuses)
  }

  ghost predicate Silent(fx: Passives) {
    forall m, b: BattleState :: fx(m, b) == []
  }

  lemma {:induction false} KeptCalm(ss: seq<Active>)
    requires CalmStatuses(ss)
    ensures CalmStatuses(Kept(ss, false)) && SpdPct(Kept(ss, false)) == SpdPct(ss)
  {
    if ss != [] {
      assert CalmStatus(ss[0]);
      assert CalmStatuses(ss[1..]);
      KeptCalm(ss[1..]);
      var rest := Kept(ss[1..], false);
      if !Spends(ss[0], false) {
        assert Kept(ss, false) == [ss[0]] + rest;
        assert ([ss[0]] + rest)[1..] == rest;
      } else if ss[0].remaining.value - 1 > 0 {
        assert Kept(ss, false) == [Spent(ss[0])] + rest;
        assert ([Spent(ss[0])] + rest)[1..] == rest;
      }
    }
  }

  /** Ageing adds nothing that stops a turn. */
  lemma {:induction false} KeptFree(ss: seq<Active>, gauge: bool)
    requires forall k :: 0 <= k < |ss| ==> !ss[k].immobilizes
    ensures forall k :: 0 <= k < |Kept(ss, gauge)| ==> !Kept(ss, gauge)[k].immobilizes
  {
    if ss != [] {
      KeptFree(ss[1..], gauge);
    }
  }

  /** Ageing adds no damage over time. */
  lemma {:induction false} KeptDot(ss: seq<Active>, gauge: bool)
    ensures DotOf(Kept(ss, gauge)) <= DotOf(ss)
  {
    if ss != [] {
      KeptDot(ss[1..], gauge);
      var rest := Kept(ss[1..], gauge);
      assert ([ss[0]] + rest)[1..] == rest;
      if ss[0].remaining.Some? { assert ([Spent(ss[0])] + rest)[1..] == rest; }
    }
  }

  lemma CalmReads(u: UnitState)
    requires CalmStatuses(u.statuses)
    ensures !Blocked(u)
  {
    forall k | 0 <= k < |u.statuses| ensures !u.statuses[k].blocks {
      assert CalmStatus(u.statuses[k]);
    }
  }

  /** Everybody who lives can fill. */
  lemma CalmMoves(us: seq<UnitState>)
    requires CalmField(us)
    ensures forall i :: 0 <= i < |us| && Racers(us)[i].live ==> Mover(Racers(us), i)
    ensures AnyFillable(us) <==> AnyAlive(us)
  {
    forall i | 0 <= i < |us| && Alive(us[i]) ensures !Blocked(us[i]) {
      CalmReads(us[i]);
    }
  }

  // -- one action -------------------------------------------------------------------

  /** The unit that has acted, as the next roll finds it. */
  function Spending(u: UnitState): UnitState {
    TickDurations(SpendGauge(TickCooldowns(u)))
  }

  lemma SpendingCalm(u: UnitState)
    requires CalmStatuses(u.statuses)
    ensures var u' := Spending(u);
            && CalmStatuses(u'.statuses) && RacerOf(u') == RacerOf(u) && u'.scv == SpendGauge(u).scv
            && u'.order == u.order && Alive(u') == Alive(u) && u'.statuses == Kept(u.statuses, false)
  {
    KeptCalm(u.statuses);
    CalmReads(u);
    CalmReads(Spending(u));
  }

  lemma SilentFire(b: BattleState)
    ensures Fire(b, []) == b
  {
    assert b.deaths + [] == b.deaths;
  }

  lemma FinishCalm(b: BattleState, i: nat, fx: Passives)
    requires i < |b.units| && Silent(fx)
    ensures FinishAction(b, i, fx) == b.(units := b.units[i := Spending(b.units[i])])
  {
    var b1 := b.(units := b.units[i := SpendGauge(TickCooldowns(b.units[i]))]);
    SilentFire(b1);
    assert b1.units[i := TickDurations(b1.units[i])] == b.units[i := Spending(b.units[i])];
  }

  lemma {:induction false} NothingAges(us: seq<UnitState>, n: nat)
    requires CalmField(us) && n <= |us|
    ensures AgeRemovals(us, n) == []
  {
    if n > 0 {
      NothingAges(us, n - 1);
      if Alive(us[n - 1]) { CalmReads(us[n - 1]); }
    }
  }

  lemma AgeCalm(b: BattleState)
    requires CalmField(b.units)
    ensures AgeBlocks(b) == b
  {
    NothingAges(b.units, |b.units|);
    forall i | 0 <= i < |b.units| ensures AgeUnit(b.units[i]) == b.units[i] {
      if Alive(b.units[i]) { CalmReads(b.units[i]); }
    }
    assert AgeUnits(b.units) == b.units;
  }

  lemma StillToFill(r: seq<Racer>, g: seq<real>, m: nat)
    requires ValidRacers(r) && m < |r| == |g| && g[m] < FULL
    ensures Remaining(r, g, m) > 0.0
  {
    DivLe(0.0, FULL - g[m], r[m].spd);
  }

  /** With everybody free to fill, the real gauges advance exactly as the race settles. */
  lemma FillIsSettle(r: seq<Racer>, g: seq<real>)
    requires ValidRacers(r) && ValidGauges(r, g) && SomeoneMoves(r)
    requires forall i :: 0 <= i < |r| && r[i].live ==> Mover(r, i)
    ensures Fill(r, g) == Settle(r, g)
  {
    if SomeoneFull(r, g) {
      var i :| 0 <= i < |r| && r[i].live && g[i] >= FULL;
      FillWhenFull(r, g, i);
    } else {
      var m :| 0 <= m < |r| && Mover(r, m) && LeastGap(r, g, |r|).value == Remaining(r, g, m);
      StillToFill(r, g, m);
    }
  }

  /** A roll of an undisturbed field settles its gauges and nothing else. */
  lemma CalmRoll(b: BattleState)
    requires ValidField(b.units) && CalmField(b.units) && AnyAlive(b.units)
    ensures Roll(b) == b.(units := Roll(b).units, turnOrder := QueueOf(Roll(b).units))
    ensures Roll(b).units == WithGauges(b.units, Settle(Racers(b.units), Gauges(b.units)))
    ensures HeadFull(Roll(b).units)
  {
    CalmMoves(b.units);
    FillableMoves(b.units);
    FillIsSettle(Racers(b.units), Gauges(b.units));
    FillableFill(b.units);
  }

  /** The tick moves hit points and nothing else; without damage over time it kills nobody. */
  lemma TickCalm(u: UnitState)
    requires ValidUnit(u) && CalmStatuses(u.statuses) && Alive(u)
    ensures ValidUnit(TickHp(u)) && TickHp(u) == u.(hp := TickHp(u).hp)
    ensures RacerOf(TickHp(u)) == RacerOf(u).(live := Alive(TickHp(u)))
    ensures DotOf(u.statuses) == 0 ==> Alive(TickHp(u))
  {
    var u' := TickHp(u);
    assert Blocked(u') == Blocked(u);
  }

  lemma SameQueue(us: seq<UnitState>, us': seq<UnitState>)
    requires ValidField(us) && ValidField(us') && SameOrders(us', us)
    requires Racers(us') == Racers(us) && Gauges(us') == Gauges(us)
    ensures QueueOf(us') == QueueOf(us)
  {
    PublishedIsSorted(Racers(us), Gauges(us));
  }
}
