/** When the cap on skipped turns bites: which turns end with a head that cannot act. */
module Stalls {
  import opened Wrappers
  import opened GaugeRace
  import opened Projection
  import opened Units
  import opened TurnQueue
  import opened Turns
  import opened TurnTheorems
  import opened Frozen
  import opened Calm

  // -- statuses after some turns of the unit's own ------------------------------------

  predicate Held(ss: seq<Active>) {
    exists k :: 0 <= k < |ss| && ss[k].immobilizes
  }

  function Aged(ss: seq<Active>, n: nat): seq<Active>
    decreases n
  {
    if n == 0 then ss else Kept(Aged(ss, n - 1), false)
  }

  /** The status is still there after `n` turns: it never runs out, or not so soon. */
  predicate Outlasts(st: Active, n: nat) {
    n == 0 || st.remaining.None? || st.remaining.value > n
  }

  predicate HeldAfter(ss: seq<Active>, n: nat) {
    exists k :: 0 <= k < |ss| && ss[k].immobilizes && Outlasts(ss[k], n)
  }

  lemma AgedOnce(ss: seq<Active>, n: nat)
    ensures Aged(Kept(ss, false), n) == Aged(ss, n + 1)
    decreases n
  {
    if n > 0 { AgedOnce(ss, n - 1); }
  }

  /** One turn of the clock takes one from every count. */
  lemma {:induction false} KeptHolds(ss: seq<Active>, n: nat)
    ensures HeldAfter(Kept(ss, false), n) <==> HeldAfter(ss, n + 1)
  {
    if ss != [] {
      KeptHolds(ss[1..], n);
      HeldCons(ss, n + 1);
      var rest := Kept(ss[1..], false);
      if !Spends(ss[0], false) {
        HeldCons([ss[0]] + rest, n);
        assert ([ss[0]] + rest)[1..] == rest;
      } else if ss[0].remaining.value - 1 > 0 {
        HeldCons([Spent(ss[0])] + rest, n);
        assert ([Spent(ss[0])] + rest)[1..] == rest;
      }
    }
  }

  lemma HeldCons(ss: seq<Active>, n: nat)
    requires ss != []
    ensures HeldAfter(ss, n) <==> (ss[0].immobilizes && Outlasts(ss[0], n)) || HeldAfter(ss[1..], n)
  {
    if HeldAfter(ss, n) {
      var k :| 0 <= k < |ss| && ss[k].immobilizes && Outlasts(ss[k], n);
      if k > 0 { assert ss[1..][k - 1] == ss[k]; }
    }
    if HeldAfter(ss[1..], n) {
      var k :| 0 <= k < |ss[1..]| && ss[1..][k].immobilizes && Outlasts(ss[1..][k], n);
      assert ss[k + 1] == ss[1..][k];
    }
  }

  /** Whether a unit is still held after `n` turns of its own, read off the counts it has now. */
  lemma {:induction false} AgedHolds(ss: seq<Active>, n: nat)
    ensures Held(Aged(ss, n)) <==> HeldAfter(ss, n)
    decreases n
  {
    if n > 0 {
      KeptHolds(ss, n - 1);
      AgedHolds(Kept(ss, false), n - 1);
      AgedOnce(ss, n - 1);
    } else {
      assert forall k :: 0 <= k < |ss| ==> Outlasts(ss[k], 0);
    }
  }

  // -- the seats ahead ----------------------------------------------------------------

  /** The field once the turn that ends has been spent: the actor has reloaded, its durations
      have run and its gauge is spent. */
  function Ahead(b: BattleState): (us: seq<UnitState>)
    ensures |us| == |b.units|
  {
    match Acting(b)
    case None => b.units
    case Some(i) => b.units[i := Spending(b.units[i])]
  }

  /** Hit points left after `n` turns of the unit's own, ticking as its statuses age. */
  function HpAfter(u: UnitState, n: nat): nat
    decreases n
  {
    if n == 0 then u.hp
    else TickHp(u.(hp := HpAfter(u, n - 1), statuses := Aged(u.statuses, n - 1))).hp
  }

  /** Who races, where the gauges stand, and who has sat out a seat so far. */
  datatype Vigil = Vigil(r: seq<Racer>, g: seq<real>, heads: seq<nat>)

  ghost predicate ValidVigil(v: Vigil, n: nat) {
    |v.r| == n && |v.g| == n && ValidRacers(v.r)
  }

  /** The tick of its next seat takes the unit's last hit point. */
  ghost predicate Falls(us: seq<UnitState>, v: Vigil, h: nat)
    requires h < |us|
  {
    HpAfter(us[h], multiset(v.heads)[h] + 1) == 0
  }

  /** The unit is still held once it has sat out its seats so far. */
  ghost predicate HeldAt(us: seq<UnitState>, v: Vigil, h: nat)
    requires h < |us|
  {
    HeldAfter(us[h].statuses, multiset(v.heads)[h])
  }

  /** The seat is passed on: its holder falls and races no more, or spends its gauge. */
  ghost function PassOn(us: seq<UnitState>, v: Vigil): (v': Vigil)
    requires ValidVigil(v, |us|)
    ensures ValidVigil(v', |us|)
  {
    match Head(v.r, v.g)
    case None => v
    case Some(h) =>
      if Falls(us, v, h) then
        var r := v.r[h := v.r[h].(live := false)];
        Vigil(r, Settle(r, v.g), v.heads)
      else Vigil(v.r, Settle(v.r, v.g[h := 0.0]), v.heads + [h])
  }

  /** The race from here on, computed from gauges, speeds, durations and hit points. */
  ghost function Vigils(us: seq<UnitState>, k: nat): (v: Vigil)
    ensures ValidVigil(v, |us|)
  {
    if k == 0 then Vigil(Racers(us), Settle(Racers(us), Gauges(us)), []) else PassOn(us, Vigils(us, k - 1))
  }

  /** Seat `k` goes to a unit that does not take it: it falls, or it is held. */
  ghost predicate Passed(us: seq<UnitState>, k: nat) {
    var v := Vigils(us, k);
    match Head(v.r, v.g)
    case None => false
    case Some(h) => Falls(us, v, h) || HeldAt(us, v, h)
  }

  /** Seat `k` goes to a unit that is held. */
  ghost predicate StuckAt(us: seq<UnitState>, k: nat) {
    var v := Vigils(us, k);
    match Head(v.r, v.g)
    case None => false
    case Some(h) => HeldAt(us, v, h)
  }

  /** Seat `m` is the first that is taken, unless the `n` seats before it are all there were to try. */
  ghost predicate Reaches(us: seq<UnitState>, m: nat, n: nat) {
    m <= n && (forall j :: 0 <= j < m ==> Passed(us, j)) && (m < n ==> !Passed(us, m))
  }

  /** None of the first `n` seats is taken. */
  ghost predicate AllPassed(us: seq<UnitState>, n: nat) {
    forall j: nat :: j < n ==> Passed(us, j)
  }

  lemma SomeSeat(us: seq<UnitState>, n: nat) returns (m: nat)
    ensures Reaches(us, m, n)
  {
    hide Passed;
    m := 0;
    while m < n && Passed(us, m)
      invariant m <= n && forall j :: 0 <= j < m ==> Passed(us, j)
    {
      m := m + 1;
    }
  }

  // -- the battle stands at a seat ----------------------------------------------------

  /** The statuses `us` would have had its units sat out these seats. */
  ghost predicate AgedBy(us: seq<UnitState>, heads: seq<nat>, us': seq<UnitState>) {
    |us'| == |us| && forall i :: 0 <= i < |us| ==>
      us'[i].statuses == Aged(us[i].statuses, multiset(heads)[i]) && us'[i].maxHp == us[i].maxHp
  }

  /** And the hit points. */
  ghost predicate HurtBy(us: seq<UnitState>, heads: seq<nat>, us': seq<UnitState>) {
    |us'| == |us| && forall i :: 0 <= i < |us| && Alive(us'[i]) ==> us'[i].hp == HpAfter(us[i], multiset(heads)[i])
  }

  ghost predicate AtSeat(us: seq<UnitState>, v: Vigil, us': seq<UnitState>) {
    && ValidVigil(v, |us|) && |us'| == |us|
    && ValidField(us') && SameOrders(us', us) && CalmField(us')
    && Racers(us') == v.r && Gauges(us') == v.g
    && AgedBy(us, v.heads, us')
  }

  /** The head of the battle is the head of `v`. */
  ghost predicate Stands(us: seq<UnitState>, v: Vigil, b: BattleState) {
    AtSeat(us, v, b.units) && (AnyAlive(b.units) ==> HeadFull(b.units)) && ValidField(b.units) && b.turnOrder == QueueOf(b.units)
  }

  /** And its tick is still to come. */
  ghost predicate InStep(us: seq<UnitState>, v: Vigil, b: BattleState) {
    Stands(us, v, b) && HurtBy(us, v.heads, b.units)
  }

  lemma OrdersStay(us: seq<UnitState>, us': seq<UnitState>)
    requires DistinctOrders(us) && SameOrders(us', us)
    ensures DistinctOrders(us')
  {
  }

  lemma NobodyHeads(r: seq<Racer>, g: seq<real>)
    requires |g| == |r| && forall i :: 0 <= i < |r| ==> !r[i].live
    ensures Head(r, g) == None
  {
    forall i | 0 <= i < |r| ensures !FullMask(r, g)[i] {
    }
  }

  lemma NobodyQueues(us: seq<UnitState>)
    requires ValidField(us) && !AnyAlive(us)
    ensures QueueOf(us) == []
  {
    NobodyLive(Racers(us));
  }

  /** The head of the battle is the head of the race, and lives. */
  lemma SeatedHead(us: seq<UnitState>, v: Vigil, b: BattleState)
    requires DistinctOrders(us) && Stands(us, v, b)
    ensures Acting(b) == Head(v.r, v.g) && (Acting(b).Some? <==> AnyAlive(b.units))
    ensures Acting(b).Some? ==> Alive(b.units[Acting(b).value])
  {
    OrdersStay(us, b.units);
    if AnyAlive(b.units) {
      HeadOfRoll(b.units);
      FindsPosition(b.units, Head(Racers(b.units), Gauges(b.units)).value);
    } else {
      NobodyQueues(b.units);
      NobodyHeads(v.r, v.g);
    }
  }

  /** Whether that head is held is a matter of the counts at the start. */
  lemma SeatIsHeld(us: seq<UnitState>, v: Vigil, b: BattleState, h: nat)
    requires AtSeat(us, v, b.units) && h < |us|
    ensures Immobilized(b.units[h]) <==> HeldAt(us, v, h)
  {
    AgedHolds(us[h].statuses, multiset(v.heads)[h]);
    assert Immobilized(b.units[h]) <==> Held(b.units[h].statuses);
  }

  /** One unit's turn, spent or ticked, leaves everybody else where it was. */
  lemma SeatOne(us: seq<UnitState>, v: Vigil, us1: seq<UnitState>, h: nat, u: UnitState, heads: seq<nat>)
    requires AtSeat(us, v, us1) && h < |us|
    requires ValidUnit(u) && u.order == us1[h].order && (Alive(u) ==> CalmStatuses(u.statuses))
    requires u.statuses == Aged(us[h].statuses, multiset(heads)[h]) && u.maxHp == us1[h].maxHp
    requires forall i :: 0 <= i < |us| && i != h ==> multiset(heads)[i] == multiset(v.heads)[i]
    ensures AtSeat(us, Vigil(v.r[h := RacerOf(u)], v.g[h := u.scv], heads), us1[h := u])
  {
    hide RacerOf, Aged, ValidUnit, CalmStatuses;
    var us' := us1[h := u];
    forall i | 0 <= i < |us|
      ensures Racers(us')[i] == v.r[h := RacerOf(u)][i] && Gauges(us')[i] == v.g[h := u.scv][i]
           && us'[i].order == us[i].order && us'[i].statuses == Aged(us[i].statuses, multiset(heads)[i])
           && us'[i].maxHp == us[i].maxHp
           && ValidUnit(us'[i]) && (Alive(us'[i]) ==> CalmStatuses(us'[i].statuses))
    {
      assert Racers(us1)[i] == v.r[i] && Gauges(us1)[i] == v.g[i];
    }
  }

  lemma HurtOne(us: seq<UnitState>, v: Vigil, us1: seq<UnitState>, h: nat, u: UnitState, heads: seq<nat>)
    requires HurtBy(us, v.heads, us1) && h < |us|
    requires Alive(u) ==> u.hp == HpAfter(us[h], multiset(heads)[h])
    requires forall i :: 0 <= i < |us| && i != h ==> multiset(heads)[i] == multiset(v.heads)[i]
    ensures HurtBy(us, heads, us1[h := u])
  {
    hide HpAfter;
  }

  function Skipped(u: UnitState): UnitState {
    TickDurations(TickCooldowns(u)).(scv := 0.0)
  }

  lemma SkippedCalm(u: UnitState)
    requires ValidUnit(u) && CalmStatuses(u.statuses)
    ensures var u' := Skipped(u);
            && ValidUnit(u') && u'.order == u.order && RacerOf(u') == RacerOf(u) && CalmStatuses(u'.statuses)
            && u'.scv == 0.0 && u'.statuses == Kept(u.statuses, false) && u'.hp == u.hp && u'.maxHp == u.maxHp
  {
    KeptCalm(u.statuses);
    CalmReads(u);
    CalmReads(Skipped(u));
  }

  lemma AgedAgain(ss: seq<Active>, heads: seq<nat>, h: nat)
    ensures Kept(Aged(ss, multiset(heads)[h]), false) == Aged(ss, multiset(heads + [h])[h])
  {
  }

  lemma SkipIs(b: BattleState, h: nat)
    requires h < |b.units|
    ensures Skip(b, h).units == b.units[h := Skipped(b.units[h])] && Skip(b, h).round == b.round
  {
  }

  lemma TickIs(b: BattleState, h: nat)
    requires h < |b.units|
    ensures Tick(b, h).units == b.units[h := TickHp(b.units[h])] && Tick(b, h).round == b.round && Tick(b, h).turnOrder == b.turnOrder
  {
  }

  /** What the tick of the seat leaves its holder. */
  lemma TickedHp(us: seq<UnitState>, v: Vigil, us1: seq<UnitState>, h: nat)
    requires AtSeat(us, v, us1) && HurtBy(us, v.heads, us1) && h < |us| && Alive(us1[h])
    ensures TickHp(us1[h]).hp == HpAfter(us[h], multiset(v.heads)[h] + 1)
    ensures Alive(TickHp(us1[h])) <==> !Falls(us, v, h)
  {
    var n := multiset(v.heads)[h];
    var u := us[h].(hp := HpAfter(us[h], n), statuses := Aged(us[h].statuses, n));
    assert u.hp == us1[h].hp && u.statuses == us1[h].statuses && u.maxHp == us1[h].maxHp;
    SameTick(us1[h], u);
    assert HpAfter(us[h], n + 1) == TickHp(u).hp;
  }

  lemma SameTick(u: UnitState, v: UnitState)
    requires u.hp == v.hp && u.statuses == v.statuses && u.maxHp == v.maxHp
    ensures TickHp(u).hp == TickHp(v).hp
  {
  }

  /** The tick of a seat: its holder falls and leaves the race, or stands where it stood. */
  lemma TickAtSeat(us: seq<UnitState>, v: Vigil, b: BattleState, h: nat)
    requires InStep(us, v, b) && h < |us| && Alive(b.units[h])
    ensures var b1 := Tick(b, h); var r := v.r[h := v.r[h].(live := false)];
            if Falls(us, v, h) then !Alive(b1.units[h]) && AtSeat(us, Vigil(r, v.g, v.heads), b1.units) && HurtBy(us, v.heads, b1.units)
            else Alive(b1.units[h]) && Stands(us, v, b1) && b1.units[h].hp == HpAfter(us[h], multiset(v.heads)[h] + 1)
    ensures Tick(b, h).round == b.round
  {
    hide CalmStatuses, RacerOf, Aged, ValidUnit, QueueOf, TickHp, HpAfter, Falls;
    var u := TickHp(b.units[h]);
    TickIs(b, h);
    TickCalm(b.units[h]);
    TickedHp(us, v, b.units, h);
    SeatOne(us, v, b.units, h, u, v.heads);
    assert v.g[h := u.scv] == v.g;
    if Falls(us, v, h) {
      HurtOne(us, v, b.units, h, u, v.heads);
    } else {
      StillRacing(b.units[h], u);
      assert v.r[h := RacerOf(u)] == v.r;
      TickStands(b, h);
    }
  }

  lemma StillRacing(u: UnitState, u': UnitState)
    requires RacerOf(u') == RacerOf(u).(live := Alive(u')) && Alive(u) && Alive(u')
    ensures RacerOf(u') == RacerOf(u)
  {
  }

  lemma TickStands(b: BattleState, h: nat)
    requires ValidField(b.units) && CalmField(b.units) && h < |b.units| && Alive(b.units[h]) && Alive(TickHp(b.units[h]))
    requires HeadFull(b.units) && b.turnOrder == QueueOf(b.units)
    requires Racers(Tick(b, h).units) == Racers(b.units) && Gauges(Tick(b, h).units) == Gauges(b.units) && ValidField(Tick(b, h).units)
    ensures HeadFull(Tick(b, h).units) && Tick(b, h).turnOrder == QueueOf(Tick(b, h).units)
  {
    TickIs(b, h);
    TickCalm(b.units[h]);
    hide TickHp, QueueOf;
    var us' := Tick(b, h).units;
    var i :| 0 <= i < |b.units| && Alive(b.units[i]) && b.units[i].scv == FULL;
    assert Alive(us'[i]) && us'[i].scv == FULL;
    SameQueue(b.units, us');
  }

  /** The turn of a seat is spent. */
  lemma SkipAtSeat(us: seq<UnitState>, v: Vigil, b: BattleState, b0: BattleState, h: nat)
    requires AtSeat(us, v, b.units) && h < |us| && Alive(b.units[h]) && HurtBy(us, v.heads, b0.units)
    requires b.units == b0.units[h := b.units[h]] && b.units[h].hp == HpAfter(us[h], multiset(v.heads)[h] + 1)
    ensures var us' := Skip(b, h).units;
            AtSeat(us, Vigil(v.r, v.g[h := 0.0], v.heads + [h]), us') && HurtBy(us, v.heads + [h], us')
    ensures Skip(b, h).round == b.round
  {
    hide CalmStatuses, RacerOf, Aged, ValidUnit, Skipped, HpAfter;
    var u := b.units[h];
    SkippedCalm(u);
    AgedAgain(us[h].statuses, v.heads, h);
    SeatOne(us, v, b.units, h, Skipped(u), v.heads + [h]);
    HurtOne(us, v, b0.units, h, Skipped(u), v.heads + [h]);
    SkipIs(b, h);
    assert v.r[h := RacerOf(Skipped(u))] == v.r;
    assert b0.units[h := Skipped(u)] == b.units[h := Skipped(u)];
  }

  lemma NobodyRaces(us: seq<UnitState>)
    requires !AnyAlive(us)
    ensures forall i :: 0 <= i < |us| ==> !Racers(us)[i].live
  {
  }

  lemma NobodySettles(r: seq<Racer>, g: seq<real>)
    requires ValidRacers(r) && |g| == |r| && forall i :: 0 <= i < |r| ==> !r[i].live
    ensures Settle(r, g) == g
  {
  }

  lemma RollInStep(us: seq<UnitState>, v: Vigil, b: BattleState)
    requires AtSeat(us, v, b.units) && HurtBy(us, v.heads, b.units)
    ensures InStep(us, Vigil(v.r, Settle(v.r, v.g), v.heads), Roll(b)) && Roll(b).round == b.round
  {
    hide HeadFull, QueueOf, Settle, Aged, CalmStatuses, RacerOf, HpAfter;
    RollPublishes(b);
    if AnyAlive(b.units) {
      CalmRoll(b);
      GaugesLeaveRacers(b.units, Settle(v.r, v.g));
      GaugesAside(us, v, b.units, Settle(v.r, v.g));
    } else {
      NobodyRaces(b.units);
      NobodySettles(v.r, v.g);
    }
  }

  lemma GaugesAside(us: seq<UnitState>, v: Vigil, us1: seq<UnitState>, g: seq<real>)
    requires AtSeat(us, v, us1) && HurtBy(us, v.heads, us1) && |g| == |us| && ValidField(WithGauges(us1, g))
    ensures AtSeat(us, Vigil(v.r, g, v.heads), WithGauges(us1, g)) && HurtBy(us, v.heads, WithGauges(us1, g))
  {
    hide RacerOf, Aged, CalmStatuses, HpAfter;
    GaugesLeaveRacers(us1, g);
    var us' := WithGauges(us1, g);
    forall i | 0 <= i < |us| && Alive(us'[i]) ensures CalmStatuses(us'[i].statuses) {
      assert Alive(us1[i]);
    }
  }

  // -- the turn ends at the first seat that is taken ------------------------------------

  /** One try at settling the head: the seat is passed on, or taken. */
  lemma TrySeat(us: seq<UnitState>, k: nat, b: BattleState, depth: nat, fx: Passives)
    requires ValidField(b.units) && DistinctOrders(us) && InStep(us, Vigils(us, k), b) && Silent(fx)
    ensures var t := StartStep(b, depth, fx);
            if Passed(us, k) then
              t.Again? && InStep(us, Vigils(us, k + 1), t.b) && t.b.round + |Vigils(us, k).heads| == b.round + |Vigils(us, k + 1).heads|
            else t.Settled? && Stands(us, Vigils(us, k), t.b) && t.b.round == b.round
  {
    hide Tick, Skip, Roll, InStep, Stands, AtSeat, HurtBy, Immobilized, Settle, FullMask, Falls, HeldAt, HpAfter;
    var v := Vigils(us, k);
    InStepStands(us, v, b);
    SeatedHead(us, v, b);
    if Acting(b).Some? {
      var h := Acting(b).value;
      TickAtSeat(us, v, b, h);
      var b1 := Tick(b, h);
      SilentFire(b1);
      if Falls(us, v, h) {
        RollInStep(us, Vigil(v.r[h := v.r[h].(live := false)], v.g, v.heads), b1);
      } else {
        StandsAt(us, v, b1);
        SeatIsHeld(us, v, b1, h);
        if HeldAt(us, v, h) { SitOut(us, v, b, h); }
      }
    }
  }

  lemma InStepStands(us: seq<UnitState>, v: Vigil, b: BattleState)
    requires InStep(us, v, b)
    ensures Stands(us, v, b) && |b.units| == |us| && HurtBy(us, v.heads, b.units)
  {
  }

  lemma StandsAt(us: seq<UnitState>, v: Vigil, b: BattleState)
    requires Stands(us, v, b)
    ensures AtSeat(us, v, b.units) && |b.units| == |us|
  {
  }

  lemma SitOut(us: seq<UnitState>, v: Vigil, b: BattleState, h: nat)
    requires InStep(us, v, b) && h < |us| && Alive(b.units[h]) && !Falls(us, v, h)
    ensures ValidField(Skip(Tick(b, h), h).units)
    ensures var b' := Roll(Skip(Tick(b, h), h));
            && InStep(us, Vigil(v.r, Settle(v.r, v.g[h := 0.0]), v.heads + [h]), b'.(round := b'.round + 1))
            && b'.round == b.round
  {
    hide Settle, FullMask, HpAfter, Falls, QueueOf, HeadFull, Aged;
    var b1 := Tick(b, h);
    TickAtSeat(us, v, b, h);
    TickIs(b, h);
    SkipAtSeat(us, v, b1, b, h);
    hide Roll, Skip, Tick;
    RollInStep(us, Vigil(v.r, v.g[h := 0.0], v.heads + [h]), Skip(b1, h));
  }

  /** Which way the search goes from seat `k`. */
  lemma SearchStep(us: seq<UnitState>, k: nat, m: nat, n: nat)
    requires Reaches(us, m, n) && k <= m
    ensures if k < n && Passed(us, k) then k < m else k == m
  {
  }

  lemma {:induction false} StartFindsSeat(us: seq<UnitState>, k: nat, m: nat, b: BattleState, fx: Passives)
    requires ValidField(b.units) && DistinctOrders(us) && InStep(us, Vigils(us, k), b) && Silent(fx)
    requires k <= m && Reaches(us, m, |us| + 1)
    ensures Stands(us, Vigils(us, m), StartOfTurn(b, k, fx))
    ensures StartOfTurn(b, k, fx).round + |Vigils(us, k).heads| == b.round + |Vigils(us, m).heads|
    decreases m - k
  {
    hide *;
    InStepStands(us, Vigils(us, k), b);
    SearchStep(us, k, m, |us| + 1);
    StartOnce(b, k, fx);
    if k <= |us| {
      TrySeat(us, k, b, k, fx);
      if Passed(us, k) {
        StartFindsSeat(us, k + 1, m, StartStep(b, k, fx).b, fx);
      }
    }
  }

  lemma AheadValid(b: BattleState)
    requires ValidField(b.units) && DistinctOrders(b.units) && CalmField(b.units)
    ensures var us := Ahead(b);
            && ValidField(us) && DistinctOrders(us) && CalmField(us) && (AnyAlive(us) <==> AnyAlive(b.units))
  {
    if Acting(b).Some? && Alive(b.units[Acting(b).value]) {
      SpendingCalm(b.units[Acting(b).value]);
    }
    hide Spending;
    SameLife(b.units, Ahead(b));
  }

  lemma RotateIs(b: BattleState, fx: Passives)
    requires ValidField(b.units) && DistinctOrders(b.units) && CalmField(b.units) && Silent(fx)
    ensures ValidField(Ahead(b))
    ensures Rotate(b, fx) == Roll(b.(units := Ahead(b))).(round := Roll(b.(units := Ahead(b))).round + 1, turnOpen := false)
  {
    hide Roll, FinishAction, Spending, AgeBlocks;
    AheadValid(b);
    if Acting(b).Some? { FinishCalm(b, Acting(b).value, fx); }
    AgeCalm(b.(units := Ahead(b)));
  }

  lemma AtStart(us: seq<UnitState>)
    requires ValidField(us) && CalmField(us)
    ensures AtSeat(us, Vigil(Racers(us), Gauges(us), []), us) && HurtBy(us, [], us)
  {
  }

  lemma RotateAtSeat(b: BattleState, fx: Passives)
    requires ValidField(b.units) && DistinctOrders(b.units) && CalmField(b.units) && Silent(fx)
    ensures InStep(Ahead(b), Vigils(Ahead(b), 0), Rotate(b, fx)) && Rotate(b, fx).round == b.round + 1
    ensures Vigils(Ahead(b), 0).heads == []
  {
    hide Ahead, AtSeat, HurtBy, Roll, Rotate, Settle, FullMask, QueueOf, HeadFull;
    AheadValid(b);
    RotateIs(b, fx);
    var us := Ahead(b);
    AtStart(us);
    RollInStep(us, Vigil(Racers(us), Gauges(us), []), b.(units := us));
  }

  /** WHERE A TURN ENDS, EXACTLY, on a calm field: at the first seat of the race ahead whose holder
      neither falls nor is held, each held seat before it costing a round; or, with none taken among
      the first |units| + 1, at the next seat whatever its holder can do. */
  lemma EndTurnSeats(b: BattleState, fx: Passives, m: nat)
    requires ValidField(b.units) && DistinctOrders(b.units) && CalmField(b.units) && Silent(fx)
    requires Reaches(Ahead(b), m, |b.units| + 1)
    ensures Stands(Ahead(b), Vigils(Ahead(b), m), EndTurn(b, fx))
    ensures EndTurn(b, fx).round == b.round + 1 + |Vigils(Ahead(b), m).heads|
    ensures HeadStuck(EndTurn(b, fx)) <==> m == |b.units| + 1 && StuckAt(Ahead(b), m)
    ensures HeadCanAct(EndTurn(b, fx)) <==> AnyAlive(EndTurn(b, fx).units) && !HeadStuck(EndTurn(b, fx))
  {
    hide Ahead, InStep, Stands, Vigils, Rotate, StartOfTurn, Immobilized;
    AheadValid(b);
    RotateAtSeat(b, fx);
    StartFindsSeat(Ahead(b), 0, m, Rotate(b, fx), fx);
    var v := Vigils(Ahead(b), m);
    SeatedHead(Ahead(b), v, EndTurn(b, fx));
    StandsAt(Ahead(b), v, EndTurn(b, fx));
    if Acting(EndTurn(b, fx)).Some? {
      SeatIsHeld(Ahead(b), v, EndTurn(b, fx), Acting(EndTurn(b, fx)).value);
    }
  }

  lemma SeatsTried(us: seq<UnitState>, m: nat, n: nat)
    requires Reaches(us, m, n)
    ensures AllPassed(us, n) <==> m == n
  {
    hide Passed;
  }

  /** WHEN THE CAP BITES, EXACTLY: a turn hands the next one to a unit that cannot take it if and
      only if none of the first |units| + 1 seats of the race ahead is taken, for its holder falls
      or is still held after the seats it has sat out, and the seat after them goes to a unit that
      is held. Otherwise the head can act, unless nobody is alive. */
  lemma CapBites(b: BattleState, fx: Passives)
    requires ValidField(b.units) && DistinctOrders(b.units) && CalmField(b.units) && Silent(fx)
    ensures HeadStuck(EndTurn(b, fx)) <==> AllPassed(Ahead(b), |b.units| + 1) && StuckAt(Ahead(b), |b.units| + 1)
    ensures HeadCanAct(EndTurn(b, fx)) <==> AnyAlive(EndTurn(b, fx).units) && !HeadStuck(EndTurn(b, fx))
  {
    hide Ahead, Passed, StuckAt, Stands, EndTurn, HeadStuck, HeadCanAct, CalmField, Silent, Reaches, AllPassed;
    var m := SomeSeat(Ahead(b), |b.units| + 1);
    EndTurnSeats(b, fx, m);
    SeatsTried(Ahead(b), m, |b.units| + 1);
  }

  // -- without damage over time -----------------------------------------------------------

  /** Nobody who lives is hurt by its own turns. */
  predicate Painless(us: seq<UnitState>) {
    forall i :: 0 <= i < |us| && Alive(us[i]) ==> DotOf(us[i].statuses) == 0 && ValidUnit(us[i])
  }

  lemma {:induction false} AgedDot(ss: seq<Active>, n: nat)
    ensures DotOf(Aged(ss, n)) <= DotOf(ss)
    decreases n
  {
    if n > 0 {
      AgedDot(ss, n - 1);
      KeptDot(Aged(ss, n - 1), false);
    }
  }

  lemma {:induction false} NeverFalls(u: UnitState, n: nat)
    requires Alive(u) && DotOf(u.statuses) == 0 && ValidUnit(u)
    ensures 0 < HpAfter(u, n) <= u.maxHp
    decreases n
  {
    if n > 0 {
      NeverFalls(u, n - 1);
      AgedDot(u.statuses, n - 1);
    }
  }

  lemma HeadLives1(r: seq<Racer>, g: seq<real>)
    requires |g| == |r|
    ensures Head(r, g).Some? ==> r[Head(r, g).value].live
  {
    if Head(r, g).Some? { assert FullMask(r, g)[Head(r, g).value]; }
  }

  /** There the race ahead is the plain race, and nobody passes a seat on but the held. */
  lemma {:induction false} PainlessRace(us: seq<UnitState>, k: nat)
    requires Painless(us)
    ensures var s := Played(Racers(us), Gauges(us), k); Vigils(us, k) == Vigil(Racers(us), s.g, s.heads)
    ensures Passed(us, k) <==> StuckAt(us, k)
    decreases k
  {
    hide Settle, FullMask, Head, Painless, Falls, HeldAt, PassOn;
    if k > 0 {
      PainlessRace(us, k - 1);
      PainlessPass(us, Vigils(us, k - 1));
    }
    PainlessSeat(us, Vigils(us, k));
  }

  lemma PainlessPass(us: seq<UnitState>, v: Vigil)
    requires Painless(us) && v.r == Racers(us) && |v.g| == |us|
    ensures PassOn(us, v) == match Head(v.r, v.g)
                             case None => v
                             case Some(h) => Vigil(v.r, TakeTurn(v.r, v.g), v.heads + [h])
  {
    hide Settle, FullMask, Head, Painless, Falls;
    PainlessSeat(us, v);
  }

  lemma PainlessSeat(us: seq<UnitState>, v: Vigil)
    requires Painless(us) && v.r == Racers(us) && |v.g| == |us|
    ensures Head(v.r, v.g).Some? ==> !Falls(us, v, Head(v.r, v.g).value)
  {
    HeadLives1(v.r, v.g);
    if Head(v.r, v.g).Some? {
      var h := Head(v.r, v.g).value;
      NeverFalls(us[h], multiset(v.heads)[h] + 1);
    }
  }

  /** On a calm field with somebody alive and nothing to die of, nobody able to act ever again is a
      stall for certain. */
  lemma FrozenCalmStalls(b: BattleState, fx: Passives)
    requires ValidField(b.units) && DistinctOrders(b.units) && CalmField(b.units) && Silent(fx)
    requires AllFrozen(b.units) && AnyAlive(b.units) && Painless(b.units)
    ensures HeadStuck(EndTurn(b, fx))
  {
    hide Ahead, EndTurn, CalmField, Silent, AllFrozen, Painless, Reaches, Stands, Passed;
    var m := SomeSeat(Ahead(b), |b.units| + 1);
    EndTurnSeats(b, fx, m);
    AheadValid(b);
    AheadPainless(b);
    PainlessRace(Ahead(b), m);
    SameStanding(Ahead(b), Vigils(Ahead(b), m), EndTurn(b, fx));
    FrozenFieldStalls(b, fx);
  }

  lemma AheadPainless(b: BattleState)
    requires ValidField(b.units) && Painless(b.units)
    ensures Painless(Ahead(b))
  {
    if Acting(b).Some? { KeptDot(b.units[Acting(b).value].statuses, false); }
  }

  lemma SameStanding(us: seq<UnitState>, v: Vigil, b: BattleState)
    requires Stands(us, v, b) && v.r == Racers(us)
    ensures AnyAlive(b.units) <==> AnyAlive(us)
  {
    forall i | 0 <= i < |us| ensures Alive(b.units[i]) == Alive(us[i]) {
      assert Racers(b.units)[i].live == Racers(us)[i].live;
    }
    SameLife(us, b.units);
  }

  // -- a stall with somebody free to act ------------------------------------------------

  function Plodder(): UnitState {
    UnitState(101, TEAM_PLAYER, 0, 1, 10.0, [0], 0, 100, 100, 0.0, 0.0, 0, [0], [], 0, 0, 0)
  }

  /** Ten times as fast, and stunned for `turns` turns of its own. */
  function Stunned(turns: int): UnitState {
    UnitState(102, TEAM_ENEMY, 0, 2, 100.0, [0], 0, 100, 100, 100.0, 0.0, 0, [0],
              [Active(1, Some(turns), false, true, 0.0, 0, 0, {})], 0, 0, 0)
  }

  function StunnedTurn(): BattleState {
    BattleState([Plodder(), Stunned(9)], [102, 101], 1, 1, 1, 0, [], [], {}, map[], true, true, false, false)
  }

  lemma FastFillsFirst(r: seq<Racer>, x: real)
    requires |r| == 2 && r[0] == Racer(true, true, 10.0, TEAM_PLAYER, 0) && r[1] == Racer(true, true, 100.0, TEAM_ENEMY, 0)
    requires 0.0 <= x <= 80.0
    ensures Settle(r, [x, 0.0]) == [x + 10.0, 100.0] && Head(r, [x + 10.0, 100.0]) == Some(1)
  {
    var g := [x, 0.0];
    assert Remaining(r, g, 1) == 1.0;
    DivLe(1.0, 100.0 - x, 10.0);
    assert LeastGap(r, g, 1) == Some(Remaining(r, g, 0));
    assert LeastGap(r, g, 2) == Some(1.0);
    assert !SomeoneFull(r, g);
    var g' := [x + 10.0, 100.0];
    assert Advance(r, g, 1.0) == g';
    assert FullMask(r, g') == [false, true];
    assert Best(r, [false, true], 1) == None;
  }

  lemma StunnedAhead()
    ensures Ahead(StunnedTurn()) == [Plodder(), Spending(Stunned(9))]
    ensures Spending(Stunned(9)).statuses == Stunned(8).statuses && Spending(Stunned(9)).scv == 0.0
    ensures Racers(Ahead(StunnedTurn())) == [Racer(true, true, 10.0, TEAM_PLAYER, 0), Racer(true, true, 100.0, TEAM_ENEMY, 0)]
  {
    var b := StunnedTurn();
    assert DistinctOrders(b.units);
    FindsPosition(b.units, 1);
    assert Acting(b) == Some(1);
    var us := Ahead(b);
    assert us[0] == Plodder() && us[1] == Spending(Stunned(9));
    assert SpdPct(us[0].statuses) == 0.0 && SpdPct(us[1].statuses) == 0.0;
  }

  /** The fast unit fills its gauge again before the slow one is half-way there. */
  lemma {:induction false} FastTakesSeats(r: seq<Racer>, k: nat)
    requires |r| == 2 && r[0] == Racer(true, true, 10.0, TEAM_PLAYER, 0) && r[1] == Racer(true, true, 100.0, TEAM_ENEMY, 0)
    requires ValidRacers(r) && k <= 3
    ensures var s := Played(r, [0.0, 0.0], k);
            s.g == [10.0 * (k + 1) as real, 100.0] && Head(r, s.g) == Some(1) && multiset(s.heads)[1] == k && |s.heads| == k
    decreases k
  {
    hide Settle, Head;
    FastFillsFirst(r, 10.0 * k as real);
    if k > 0 {
      FastTakesSeats(r, k - 1);
      assert [10.0 * k as real, 100.0][1 := 0.0] == [10.0 * k as real, 0.0];
    }
  }

  lemma StunnedSeat(us: seq<UnitState>, k: nat)
    requires us == Ahead(StunnedTurn()) && k <= 3
    ensures Head(Vigils(us, k).r, Vigils(us, k).g) == Some(1) && Passed(us, k) && StuckAt(us, k)
    ensures multiset(Vigils(us, k).heads)[1] == k && |Vigils(us, k).heads| == k
  {
    StunnedAhead();
    assert Gauges(us) == [0.0, 0.0];
    FastTakesSeats(Racers(us), k);
    assert DotOf(us[1].statuses) == 0;
    PainlessRace(us, k);
    hide Ahead, Played, Head, Vigils;
    assert us[1].statuses[0].immobilizes && Outlasts(us[1].statuses[0], k);
  }

  lemma {:induction false} StunAges(turns: int, n: nat)
    requires turns > n
    ensures Aged(Stunned(turns).statuses, n) == Stunned(turns - n).statuses
    decreases n
  {
    if n > 0 { StunAges(turns, n - 1); }
  }

  lemma {:induction false} NothingToAge(n: nat)
    ensures Aged([], n) == []
    decreases n
  {
    if n > 0 { NothingToAge(n - 1); }
  }

  /** THE CAP BITES WITH SOMEBODY FREE: the round goes from 1 to 5 and the turn to a unit with five
      turns of stun to run, while the other is alive and could act. */
  lemma StallWithSomebodyFree(fx: Passives)
    requires Silent(fx)
    ensures ValidField(StunnedTurn().units)
    ensures var b' := EndTurn(StunnedTurn(), fx);
            && HeadStuck(b') && b'.round == 5
            && Acting(b') == Some(1) && b'.units[1].statuses == Stunned(5).statuses
            && Alive(b'.units[0]) && !Immobilized(b'.units[0])
  {
    var b := StunnedTurn();
    StunnedValid();
    hide Ahead, StunnedTurn, Passed, StuckAt, Vigils, Stands, EndTurn, HeadStuck, HeadCanAct, CalmField, Silent;
    var us := Ahead(b);
    forall k: nat | k <= 3 ensures Passed(us, k) {
      StunnedSeat(us, k);
    }
    StunnedSeat(us, 3);
    EndTurnSeats(b, fx, 3);
    SeatedHead(us, Vigils(us, 3), EndTurn(b, fx));
    StunnedAhead();
    StunnedRace(us);
    StillStunned(us, Vigils(us, 3), EndTurn(b, fx));
  }

  lemma StunnedRace(us: seq<UnitState>)
    requires us == Ahead(StunnedTurn())
    ensures Vigils(us, 3).r == Racers(us)
  {
    StunnedAhead();
    assert DotOf(us[1].statuses) == 0;
    PainlessRace(us, 3);
  }

  lemma StunnedValid()
    ensures var b := StunnedTurn();
            && |b.units| == 2 && b.round == 1 && ValidField(b.units) && DistinctOrders(b.units) && CalmField(b.units)
            && AnyAlive(b.units) && DistinctOrders(Ahead(b)) && |Ahead(b)| == 2
  {
    var b := StunnedTurn();
    assert Alive(b.units[0]);
    StunnedAhead();
  }

  lemma StillStunned(us: seq<UnitState>, v: Vigil, b: BattleState)
    requires |us| == 2 && us[0] == Plodder() && us[1].statuses == Stunned(8).statuses
    requires Stands(us, v, b) && v.r == Racers(us) && multiset(v.heads)[1] == 3
    ensures |b.units| == 2 && b.units[1].statuses == Stunned(5).statuses
    ensures Alive(b.units[0]) && !Immobilized(b.units[0])
  {
    StunAges(8, 3);
    NothingToAge(multiset(v.heads)[0]);
    assert Racers(us)[0].live && Racers(b.units)[0].live;
  }
}
