/** The battle's state, and the roll that seats the next unit and publishes the queue. */
module TurnQueue {
  import opened Wrappers
  import opened GaugeRace
  import opened RaceRun
  import opened RaceCount
  import opened Projection
  import opened Units
  import opened StatusRows

  /** An out-of-band loss of hit points waiting to be sent; `die` marks a death. */
  datatype DeathRow = DeathRow(order: nat, dmg: nat, wave: nat, die: bool)

  /** Banked battle-record totals of the enemies that held one field slot. */
  datatype Total = Total(index: int, charId: int, done: nat, taken: nat, healed: nat)

  datatype BattleState = BattleState(
    units: seq<UnitState>, turnOrder: seq<nat>, wave: nat, waveMax: nat, round: nat, damageSum: nat,
    deaths: seq<DeathRow>, rows: seq<Row>, told: set<Key>, totals: map<nat, Total>,
    turnOpen: bool, waveBegun: bool, auto: bool, tellNonFatal: bool)

  // -- ageing gauge blocks ----------------------------------------------------------

  function Removals(u: UnitState, expired: seq<Active>): (c: seq<Change>)
    ensures |c| == |expired|
  {
    seq(|expired|, k requires 0 <= k < |expired| => Change(u.order, expired[k].id, false, None))
  }

  /** The removals that ageing one unit's blocks gives rise to. */
  function RemovalsOf(u: UnitState): seq<Change> {
    if Alive(u) && Blocked(u) then Removals(u, Expired(u.statuses, true)) else []
  }

  /** The removals that ageing the first `n` units' blocks gives rise to, in field order. */
  function AgeRemovals(us: seq<UnitState>, n: nat): seq<Change>
    requires n <= |us|
  {
    if n == 0 then []
    else AgeRemovals(us, n - 1) + RemovalsOf(us[n - 1])
  }

  function AgeUnits(us: seq<UnitState>): (us': seq<UnitState>)
    ensures |us'| == |us| && forall i :: 0 <= i < |us| ==> us'[i] == AgeUnit(us[i])
  {
    seq(|us|, i requires 0 <= i < |us| => AgeUnit(us[i]))
  }

  /** Did ageing actually spend a turn of some block? */
  predicate AgesSomething(us: seq<UnitState>) {
    exists i :: 0 <= i < |us| && Alive(us[i]) && AnySpends(us[i].statuses, true)
  }

  function AgeBlocks(b: BattleState): BattleState {
    b.(units := AgeUnits(b.units),
       rows := QueueAll(b.rows, b.told, b.wave, AgeRemovals(b.units, |b.units|)))
  }

  /** Turns of clock left in the blocks of the whole field. */
  function FieldBlockTurns(us: seq<UnitState>): nat {
    if us == [] then 0 else FieldBlockTurns(us[..|us| - 1]) + BlockTurns(us[|us| - 1].statuses)
  }

  lemma AgeUnitShrinks(u: UnitState)
    ensures BlockTurns(AgeUnit(u).statuses) <= BlockTurns(u.statuses)
    ensures Alive(u) && AnySpends(u.statuses, true) ==> BlockTurns(AgeUnit(u).statuses) < BlockTurns(u.statuses)
    ensures !(Alive(u) && AnySpends(u.statuses, true)) ==> AgeUnit(u) == u
  {
    AgeingShrinks(u.statuses);
    if AnySpends(u.statuses, true) {
      var k :| 0 <= k < |u.statuses| && Spends(u.statuses[k], true);
      assert u.statuses[k].blocks;
    }
  }

  lemma {:induction false} AgeShrinks(us: seq<UnitState>)
    ensures FieldBlockTurns(AgeUnits(us)) <= FieldBlockTurns(us)
    ensures AgesSomething(us) ==> FieldBlockTurns(AgeUnits(us)) < FieldBlockTurns(us)
  {
    if us != [] {
      var n := |us| - 1;
      AgeShrinks(us[..n]);
      AgeUnitShrinks(us[n]);
      assert AgeUnits(us)[..n] == AgeUnits(us[..n]);
      if AgesSomething(us) {
        var i :| 0 <= i < |us| && Alive(us[i]) && AnySpends(us[i].statuses, true);
        if i < n {
          assert us[..n][i] == us[i];
          assert AgesSomething(us[..n]);
        }
      }
    }
  }

  // -- the roll ---------------------------------------------------------------------

  function LiveMask(us: seq<UnitState>): (c: seq<bool>)
    ensures |c| == |us|
  {
    seq(|us|, i requires 0 <= i < |us| => Alive(us[i]))
  }

  /** With nothing left to age, the best-ranked living unit is handed a full gauge. */
  function ForceFastest(us: seq<UnitState>): (us': seq<UnitState>)
    ensures |us'| == |us|
  {
    match Best(Racers(us), LiveMask(us), |us|)
    case None => us
    case Some(i) => us[i := us[i].(scv := FULL)]
  }

  /** Age blocks until some living unit can fill; failing that, force one. */
  function Unblock(b: BattleState): (b': BattleState)
    decreases FieldBlockTurns(b.units)
  {
    if !AnyAlive(b.units) || AnyFillable(b.units) then b
    else if AgesSomething(b.units) then
      AgeShrinks(b.units);
      Unblock(AgeBlocks(b))
    else b.(units := ForceFastest(b.units))
  }

  /** The gauges run on until the first unit that can fill is full. */
  function Fill(r: seq<Racer>, g: seq<real>): (g': seq<real>)
    requires ValidRacers(r) && |g| == |r|
    ensures |g'| == |r|
  {
    match LeastGap(r, g, |r|)
    case None => g
    case Some(t) => if t > 0.0 then Advance(r, g, t) else g
  }

  function FillUnits(us: seq<UnitState>): (us': seq<UnitState>)
    ensures |us'| == |us|
  {
    WithGauges(us, Fill(Racers(us), Gauges(us)))
  }

  ghost function QueueOf(us: seq<UnitState>): (o: seq<nat>)
    requires ValidField(us)
  {
    PublishedIsSorted(Racers(us), Gauges(us));
    Orders(us, Published(Racers(us), Gauges(us)))
  }

  lemma FillValid(r: seq<Racer>, g: seq<real>)
    requires ValidRacers(r) && ValidGauges(r, g)
    ensures ValidGauges(r, Fill(r, g))
  {
    var t := LeastGap(r, g, |r|);
    if t.Some? && t.value > 0.0 {
      forall i | 0 <= i < |r| ensures 0.0 <= Fill(r, g)[i] <= FULL {
        if Mover(r, i) { AdvanceOne(r, g, t.value, i); }
      }
    }
  }

  lemma {:induction false} UnblockValid(b: BattleState)
    requires ValidField(b.units)
    ensures ValidField(Unblock(b).units) && |Unblock(b).units| == |b.units|
    decreases FieldBlockTurns(b.units)
  {
    if AnyAlive(b.units) && !AnyFillable(b.units) && AgesSomething(b.units) {
      AgeShrinks(b.units);
      AgedValid(b);
      UnblockValid(AgeBlocks(b));
    }
  }

  lemma AgedValid(b: BattleState)
    requires ValidField(b.units)
    ensures ValidField(AgeBlocks(b).units)
  {
  }

  lemma FillUnitsValid(us: seq<UnitState>)
    requires ValidField(us)
    ensures ValidField(FillUnits(us))
  {
    FillValid(Racers(us), Gauges(us));
  }

  /** Seat the next unit and publish the queue. */
  ghost function Roll(b: BattleState): (b': BattleState)
    requires ValidField(b.units)
    ensures ValidField(b'.units) && |b'.units| == |b.units|
  {
    if !AnyAlive(b.units) then b.(turnOrder := [])
    else
      UnblockValid(b);
      var b1 := Unblock(b);
      FillUnitsValid(b1.units);
      b1.(units := FillUnits(b1.units), turnOrder := QueueOf(FillUnits(b1.units)))
  }

  // -- what a roll guarantees -------------------------------------------------------

  /** Filling makes somebody full whenever somebody can fill. */
  lemma FillFills(r: seq<Racer>, g: seq<real>)
    requires ValidRacers(r) && ValidGauges(r, g) && SomeoneMoves(r)
    ensures exists m :: 0 <= m < |r| && Mover(r, m) && Fill(r, g)[m] == FULL
  {
    var t := LeastGap(r, g, |r|).value;
    var m :| 0 <= m < |r| && Mover(r, m) && t == Remaining(r, g, m);
    DivLe(0.0, FULL - g[m], r[m].spd);
    AdvanceOne(r, g, t, m);
    if t == 0.0 { DivLe(t, FULL - g[m], r[m].spd); }
    assert Fill(r, g)[m] == FULL;
  }

  lemma FillWhenFull(r: seq<Racer>, g: seq<real>, m: nat)
    requires ValidRacers(r) && ValidGauges(r, g) && m < |r| && Mover(r, m) && g[m] == FULL
    ensures Fill(r, g) == g
  {
    var t := LeastGap(r, g, |r|).value;
    assert t <= Remaining(r, g, m);
    DivLe(t, 0.0, r[m].spd);
  }

  lemma NobodyToFill(r: seq<Racer>, g: seq<real>)
    requires ValidRacers(r) && |g| == |r| && !SomeoneMoves(r)
    ensures Fill(r, g) == g
  {
  }

  ghost predicate Stuck(us: seq<UnitState>) {
    AnyAlive(us) && !AnyFillable(us) && !AgesSomething(us)
  }

  lemma FillableMoves(us: seq<UnitState>)
    ensures AnyFillable(us) <==> SomeoneMoves(Racers(us))
  {
    if AnyFillable(us) {
      var i :| 0 <= i < |us| && Alive(us[i]) && !Blocked(us[i]);
      assert Mover(Racers(us), i);
    }
    if SomeoneMoves(Racers(us)) {
      var i :| 0 <= i < |us| && Mover(Racers(us), i);
      assert Alive(us[i]) && !Blocked(us[i]);
    }
  }

  ghost predicate HeadFull(us: seq<UnitState>) {
    exists i :: 0 <= i < |us| && Alive(us[i]) && us[i].scv == FULL
  }

  /** Handing the best-ranked unit a full gauge changes nobody's standing, and is the same
      the second time. */
  lemma ForceOnce(us: seq<UnitState>)
    requires AnyAlive(us)
    ensures var us' := ForceFastest(us);
            && Racers(us') == Racers(us) && LiveMask(us') == LiveMask(us)
            && ForceFastest(us') == us'
            && HeadFull(us')
  {
    var c := LiveMask(us);
    var a :| 0 <= a < |us| && Alive(us[a]);
    assert c[a];
    var i := Best(Racers(us), c, |us|).value;
    var us' := ForceFastest(us);
    assert us' == us[i := us[i].(scv := FULL)];
    assert Gauges(us') == Gauges(us)[i := FULL];
    assert us' == WithGauges(us, Gauges(us'));
    GaugesLeaveRacers(us, Gauges(us'));
    assert LiveMask(us') == c;
    assert c[i] && us'[i].scv == FULL;
    assert us'[i := us'[i].(scv := FULL)] == us';
  }

  lemma StuckFill(us: seq<UnitState>)
    requires ValidField(us) && Stuck(us)
    ensures FillUnits(ForceFastest(us)) == ForceFastest(us)
    ensures HeadFull(ForceFastest(us))
  {
    ForceOnce(us);
    var us' := ForceFastest(us);
    FillableMoves(us);
    NobodyToFill(Racers(us'), Gauges(us'));
    assert FillUnits(us') == us';
  }

  lemma FillableFill(us: seq<UnitState>)
    requires ValidField(us) && AnyFillable(us)
    ensures HeadFull(FillUnits(us))
  {
    FillableMoves(us);
    var r, g := Racers(us), Gauges(us);
    FillFills(r, g);
    var m :| 0 <= m < |r| && Mover(r, m) && Fill(r, g)[m] == FULL;
    assert Alive(FillUnits(us)[m]) && FillUnits(us)[m].scv == FULL;
  }

  lemma {:induction false} UnblockEnds(b: BattleState)
    requires ValidField(b.units) && AnyAlive(b.units)
    ensures AnyFillable(Unblock(b).units)
         || exists us :: ValidField(us) && Stuck(us) && Unblock(b).units == ForceFastest(us)
    decreases FieldBlockTurns(b.units)
  {
    hide AnyFillable, ForceFastest;
    if AnyFillable(b.units) {
    } else if AgesSomething(b.units) {
      AgeShrinks(b.units);
      AgedValid(b);
      AgedAlive(b);
      UnblockEnds(AgeBlocks(b));
    } else {
      assert Stuck(b.units);
    }
  }

  lemma AgedAlive(b: BattleState)
    ensures AnyAlive(AgeBlocks(b).units) <==> AnyAlive(b.units)
  {
    var us, us' := b.units, AgeBlocks(b).units;
    forall i | 0 <= i < |us| ensures Alive(us'[i]) <==> Alive(us[i]) {
    }
    if AnyAlive(us) {
      var i :| 0 <= i < |us| && Alive(us[i]);
      assert Alive(us'[i]);
    }
  }

  /** After a roll somebody living stands at a full gauge, even if every living unit is
      blocked for the rest of the battle. */
  lemma RollFillsSomeone(b: BattleState)
    requires ValidField(b.units) && AnyAlive(b.units)
    ensures HeadFull(FillUnits(Unblock(b).units))
  {
    hide FillUnits, ForceFastest;
    UnblockValid(b);
    UnblockEnds(b);
    if AnyFillable(Unblock(b).units) {
      FillableFill(Unblock(b).units);
    } else {
      var us :| ValidField(us) && Stuck(us) && Unblock(b).units == ForceFastest(us);
      StuckFill(us);
    }
  }

  /** Whoever heads the queue: the best-ranked living unit at a full gauge. */
  lemma HeadOfRoll(us: seq<UnitState>)
    requires ValidField(us) && HeadFull(us)
    ensures QueueOf(us) != []
    ensures var h := Head(Racers(us), Gauges(us));
            h.Some? && h.value < |us| && QueueOf(us)[0] == us[h.value].order && Alive(us[h.value]) && us[h.value].scv == FULL
  {
    var r, g := Racers(us), Gauges(us);
    var i :| 0 <= i < |us| && Alive(us[i]) && us[i].scv == FULL;
    assert SomeoneFull(r, g) by { assert r[i].live && g[i] >= FULL; }
    SomebodyLive(r, i);
    QueueHead(r, g, Budget(r));
    NextIsFull(r, g);
  }

  lemma SomebodyLive(r: seq<Racer>, i: nat)
    requires i < |r| && r[i].live
    ensures LiveCount(r) >= 1 && Budget(r) >= 1
  {
    LiveSetSize(r);
    assert i in LiveSet(r);
  }

  lemma NobodyLive(r: seq<Racer>)
    requires forall i :: 0 <= i < |r| ==> !r[i].live
    ensures Budget(r) == 0
  {
    LiveSetSize(r);
    assert LiveSet(r) == {};
  }

  /** SOFT-LOCK FREEDOM of the roll: while anybody lives the queue is not empty, and its head
      is a living unit whose real gauge is full. */
  lemma RollSeats(b: BattleState)
    requires ValidField(b.units) && AnyAlive(b.units)
    ensures Roll(b).turnOrder != []
    ensures exists i :: 0 <= i < |Roll(b).units| && Roll(b).units[i].order == Roll(b).turnOrder[0]
                        && Alive(Roll(b).units[i]) && Roll(b).units[i].scv == FULL
  {
    RollFillsSomeone(b);
    UnblockValid(b);
    FillUnitsValid(Unblock(b).units);
    HeadOfRoll(FillUnits(Unblock(b).units));
  }

  /** `q` is an initial segment, sorted by time to fill and then rank, of the positions that can
      act, and holds exactly those whose turn number is within the budget. */
  ghost predicate SortedWithin(r: seq<Racer>, g: seq<real>, q: seq<nat>)
    requires ValidRacers(r) && ValidGauges(r, g)
  {
    && SortedPrefix(r, g, q)
    && forall w :: 0 <= w < |r| && CanAct(r, g, w) ==> (w in q <==> Turn(r, g, w) <= Budget(r))
  }

  lemma PublishedWithin(r: seq<Racer>, g: seq<real>)
    requires ValidRacers(r) && ValidGauges(r, g)
    ensures SortedWithin(r, g, Published(r, g))
  {
    PublishedIsSorted(r, g);
    forall w | 0 <= w < |r| && CanAct(r, g, w) ensures w in Published(r, g) <==> Turn(r, g, w) <= Budget(r) {
      PublishedIff(r, g, w);
    }
  }

  lemma RollPublishes(b: BattleState)
    requires ValidField(b.units)
    ensures Roll(b).turnOrder == QueueOf(Roll(b).units)
  {
    if !AnyAlive(b.units) {
      NobodyLive(Racers(b.units));
    }
  }

  /** THE QUEUE IS A SORT of the real field: what the roll publishes is, in order, an initial
      segment of the units that can act, sorted by time to fill and then rank. */
  lemma RollSorts(b: BattleState)
    requires ValidField(b.units)
    ensures var us := Roll(b).units; var r := Racers(us); var g := Gauges(us);
            exists q :: (forall k :: 0 <= k < |q| ==> q[k] < |us|) && SortedWithin(r, g, q) && Roll(b).turnOrder == Orders(us, q)
  {
    RollPublishes(b);
    var us := Roll(b).units;
    hide Roll, SortedWithin, SortedPrefix, Published;
    var q := Published(Racers(us), Gauges(us));
    PublishedInField(us);
    PublishedWithin(Racers(us), Gauges(us));
    assert Roll(b).turnOrder == Orders(us, q);
  }

  lemma PublishedInField(us: seq<UnitState>)
    requires ValidField(us)
    ensures forall k :: 0 <= k < |Published(Racers(us), Gauges(us))| ==> Published(Racers(us), Gauges(us))[k] < |us|
  {
    PublishedIsSorted(Racers(us), Gauges(us));
  }

  // -- rolling twice ----------------------------------------------------------------

  lemma FillKeepsStanding(us: seq<UnitState>)
    ensures Racers(FillUnits(us)) == Racers(us)
    ensures AnyAlive(FillUnits(us)) <==> AnyAlive(us)
    ensures AnyFillable(FillUnits(us)) <==> AnyFillable(us)
  {
    GaugesLeaveRacers(us, Fill(Racers(us), Gauges(us)));
    FillableMoves(us);
    FillableMoves(FillUnits(us));
    SameLife(us, FillUnits(us));
  }

  lemma SameLife(us: seq<UnitState>, us': seq<UnitState>)
    requires |us'| == |us| && forall i :: 0 <= i < |us| ==> Alive(us'[i]) == Alive(us[i])
    ensures AnyAlive(us') <==> AnyAlive(us)
  {
    if AnyAlive(us') {
      var i :| 0 <= i < |us| && Alive(us'[i]);
      assert Alive(us[i]);
    }
    if AnyAlive(us) {
      var i :| 0 <= i < |us| && Alive(us[i]);
      assert Alive(us'[i]);
    }
  }

  lemma FillTwice(us: seq<UnitState>)
    requires ValidField(us) && AnyFillable(us)
    ensures FillUnits(FillUnits(us)) == FillUnits(us)
  {
    var r, g := Racers(us), Gauges(us);
    GaugesLeaveRacers(us, Fill(r, g));
    FillableMoves(us);
    FillFills(r, g);
    FillValid(r, g);
    var m :| 0 <= m < |r| && Mover(r, m) && Fill(r, g)[m] == FULL;
    FillWhenFull(r, Fill(r, g), m);
    assert FillUnits(FillUnits(us)) == FillUnits(us);
  }

  lemma ForcedStaysStuck(us: seq<UnitState>)
    requires ValidField(us) && Stuck(us)
    ensures Stuck(ForceFastest(us))
  {
    ForceOnce(us);
    var us' := ForceFastest(us);
    FillableMoves(us);
    FillableMoves(us');
    forall i | 0 <= i < |us| ensures Alive(us'[i]) == Alive(us[i]) && us'[i].statuses == us[i].statuses {
      assert LiveMask(us')[i] == LiveMask(us)[i];
    }
    SameLife(us, us');
    SameClock(us, us');
  }

  lemma SameClock(us: seq<UnitState>, us': seq<UnitState>)
    requires |us'| == |us| && forall i :: 0 <= i < |us| ==> Alive(us'[i]) == Alive(us[i]) && us'[i].statuses == us[i].statuses
    ensures AgesSomething(us') <==> AgesSomething(us)
  {
    if AgesSomething(us) {
      var i :| 0 <= i < |us| && Alive(us[i]) && AnySpends(us[i].statuses, true);
      assert Alive(us'[i]) && AnySpends(us'[i].statuses, true);
    }
    if AgesSomething(us') {
      var i :| 0 <= i < |us'| && Alive(us'[i]) && AnySpends(us'[i].statuses, true);
      assert Alive(us[i]) && AnySpends(us[i].statuses, true);
    }
  }

  /** ROLLING IS IDEMPOTENT: a second roll changes no gauge, no status and no queue. */
  lemma RollTwice(b: BattleState)
    requires ValidField(b.units)
    ensures Roll(Roll(b)) == Roll(b)
  {
    if AnyAlive(b.units) {
      UnblockValid(b);
      UnblockEnds(b);
      var us := Unblock(b).units;
      if AnyFillable(us) {
        FillableAlive(us);
        FillTwice(us);
        FillKeepsStanding(us);
      } else {
        var us0 :| ValidField(us0) && Stuck(us0) && us == ForceFastest(us0);
        StuckFill(us0);
        ForcedStaysStuck(us0);
        ForceOnce(us0);
      }
    }
  }

  lemma FillableAlive(us: seq<UnitState>)
    requires AnyFillable(us)
    ensures AnyAlive(us)
  {
  }
}
