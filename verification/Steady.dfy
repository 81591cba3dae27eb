/** The published queue comes true on the battle itself, while nothing disturbs the gauges. */
module Steady {
  import opened GaugeRace
  import opened RaceRun
  import opened Projection
  import opened Units
  import opened TurnQueue
  import opened Turns
  import opened Calm

  /** Nothing holds the unit from filling or acting, and no gain is banked. */
  predicate SteadyUnit(u: UnitState) {
    CalmStatuses(u.statuses) && !Immobilized(u) && DotOf(u.statuses) == 0 && u.pendingScv == 0.0
  }

  predicate SteadyField(us: seq<UnitState>) {
    forall i :: 0 <= i < |us| && Alive(us[i]) ==> SteadyUnit(us[i])
  }

  lemma SteadyIsCalm(us: seq<UnitState>)
    requires SteadyField(us)
    ensures CalmField(us)
    ensures forall i :: 0 <= i < |us| && Alive(us[i]) ==> CalmStatuses(us[i].statuses) && !Immobilized(us[i]) && DotOf(us[i].statuses) == 0
  {
  }

  lemma SpendingSteady(u: UnitState)
    requires SteadyUnit(u)
    ensures SteadyUnit(Spending(u)) && RacerOf(Spending(u)) == RacerOf(u)
    ensures Spending(u).scv == 0.0 && Spending(u).order == u.order && Alive(Spending(u)) == Alive(u)
  {
    SpendingCalm(u);
    KeptFree(u.statuses, false);
    KeptDot(u.statuses, false);
  }

  /** A rolled, undisturbed battle: somebody full heads the queue the gauges publish. */
  ghost predicate Ready(b: BattleState) {
    && ValidField(b.units) && DistinctOrders(b.units) && SteadyField(b.units)
    && HeadFull(b.units) && b.turnOrder == QueueOf(b.units)
  }

  lemma ReadyHead(b: BattleState)
    requires Ready(b)
    ensures Acting(b) == Head(Racers(b.units), Gauges(b.units)) && Acting(b).Some?
    ensures Alive(b.units[Acting(b).value])
  {
    HeadOfRoll(b.units);
    FindsPosition(b.units, Head(Racers(b.units), Gauges(b.units)).value);
  }

  /** The field after the actor has spent its gauge. */
  lemma SpentField(us: seq<UnitState>, i: nat)
    requires ValidField(us) && DistinctOrders(us) && SteadyField(us) && i < |us| && Alive(us[i])
    ensures var us1 := us[i := Spending(us[i])];
            && ValidField(us1) && DistinctOrders(us1) && SteadyField(us1) && AnyFillable(us1)
            && Racers(us1) == Racers(us) && Gauges(us1) == Gauges(us)[i := 0.0]
  {
    SpendingSteady(us[i]);
    CalmReads(Spending(us[i]));
    var us1 := us[i := Spending(us[i])];
    assert Alive(us1[i]) && !Blocked(us1[i]);
    forall k | 0 <= k < |us| ensures Racers(us1)[k] == Racers(us)[k] {
      assert us1[k] == if k == i then Spending(us[i]) else us[k];
    }
  }

  lemma SteadyGauges(us: seq<UnitState>, g: seq<real>)
    requires SteadyField(us) && DistinctOrders(us) && |g| == |us|
    ensures SteadyField(WithGauges(us, g)) && DistinctOrders(WithGauges(us, g))
  {
    var us' := WithGauges(us, g);
    forall i | 0 <= i < |us| && Alive(us'[i]) ensures SteadyUnit(us'[i]) {
      assert SteadyUnit(us[i]);
    }
  }

  /** The next turn opens: the race has taken exactly one turn, and the battle is ready again. */
  lemma RotateSteady(b: BattleState, fx: Passives)
    requires Ready(b) && Silent(fx)
    ensures Ready(Rotate(b, fx))
    ensures Racers(Rotate(b, fx).units) == Racers(b.units)
    ensures Gauges(Rotate(b, fx).units) == TakeTurn(Racers(b.units), Gauges(b.units))
    ensures SameOrders(Rotate(b, fx).units, b.units)
  {
    hide Roll, AgeBlocks, FinishAction, QueueOf, HeadFull, Spending, SteadyUnit;
    ReadyHead(b);
    var i := Acting(b).value;
    FinishCalm(b, i, fx);
    SpentField(b.units, i);
    var b1 := FinishAction(b, i, fx);
    assert SameOrders(b1.units, b.units) by { SpendingOrder(b.units[i]); }
    SteadyIsCalm(b1.units);
    AgeCalm(b1);
    FillableAlive(b1.units);
    CalmRoll(b1);
    var g := Settle(Racers(b1.units), Gauges(b1.units));
    GaugesLeaveRacers(b1.units, g);
    SteadyGauges(b1.units, g);
  }

  /** A roll readies any undisturbed field: nothing else is asked of where its gauges stand. */
  lemma RollReady(b: BattleState)
    requires ValidField(b.units) && DistinctOrders(b.units) && SteadyField(b.units) && AnyAlive(b.units)
    ensures Ready(Roll(b)) && Racers(Roll(b).units) == Racers(b.units)
    ensures Gauges(Roll(b).units) == Settle(Racers(b.units), Gauges(b.units))
  {
    hide Roll, QueueOf, HeadFull, SteadyUnit;
    SteadyIsCalm(b.units);
    CalmRoll(b);
    var g := Settle(Racers(b.units), Gauges(b.units));
    GaugesLeaveRacers(b.units, g);
    SteadyGauges(b.units, g);
  }

  lemma SpendingOrder(u: UnitState)
    ensures Spending(u).order == u.order
  {
  }

  lemma TickField(us: seq<UnitState>, i: nat)
    requires ValidField(us) && DistinctOrders(us) && SteadyField(us) && HeadFull(us) && i < |us| && Alive(us[i])
    ensures var us' := us[i := TickHp(us[i])];
            && ValidField(us') && DistinctOrders(us') && SteadyField(us') && HeadFull(us')
            && Racers(us') == Racers(us) && Gauges(us') == Gauges(us) && SameOrders(us', us)
  {
    TickCalm(us[i]);
    var us' := us[i := TickHp(us[i])];
    var h :| 0 <= h < |us| && Alive(us[h]) && us[h].scv == FULL;
    assert Alive(us'[h]) && us'[h].scv == FULL;
    forall k | 0 <= k < |us| ensures Racers(us')[k] == Racers(us)[k] {
      assert us'[k] == if k == i then TickHp(us[i]) else us[k];
    }
  }

  /** Nothing happens to an undisturbed head at the start of its turn but its healing. */
  lemma StartSteady(b: BattleState, fx: Passives)
    requires Ready(b) && Silent(fx)
    ensures var b' := StartOfTurn(b, 0, fx);
            Ready(b') && Racers(b'.units) == Racers(b.units) && Gauges(b'.units) == Gauges(b.units) && SameOrders(b'.units, b.units)
  {
    hide QueueOf, SteadyUnit, HeadFull;
    ReadyHead(b);
    var i := Acting(b).value;
    SteadyIsCalm(b.units);
    TickCalm(b.units[i]);
    TickField(b.units, i);
    var b1 := Tick(b, i);
    SilentFire(b1);
    SteadyIsCalm(b1.units);
    SameQueue(b.units, b1.units);
  }

  /** ONE TURN, undisturbed, is one turn of the race. */
  lemma EndTurnSteady(b: BattleState, fx: Passives)
    requires Ready(b) && Silent(fx)
    ensures Ready(EndTurn(b, fx)) && Racers(EndTurn(b, fx).units) == Racers(b.units)
    ensures Gauges(EndTurn(b, fx).units) == TakeTurn(Racers(b.units), Gauges(b.units))
    ensures SameOrders(EndTurn(b, fx).units, b.units)
  {
    assert ValidField(b.units);
    hide Ready, Rotate, StartOfTurn, TakeTurn;
    RotateSteady(b, fx);
    StartSteady(Rotate(b, fx), fx);
  }

  // -- many turns -------------------------------------------------------------------

  /** A battle after some turns, and the units that acted in them, in order. */
  datatype Course = Course(b: BattleState, actors: seq<nat>)

  ghost function OneTurn(c: Course, fx: Passives): (c': Course)
    requires ValidField(c.b.units)
    ensures ValidField(c'.b.units)
  {
    Course(EndTurn(c.b, fx), if c.b.turnOrder == [] then c.actors else c.actors + [c.b.turnOrder[0]])
  }

  ghost function After(b: BattleState, k: nat, fx: Passives): (c: Course)
    requires ValidField(b.units)
    ensures ValidField(c.b.units)
  {
    if k == 0 then Course(b, []) else OneTurn(After(b, k - 1, fx), fx)
  }

  /** The battle stands where the race does. */
  ghost predicate InStep(b: BattleState, b': BattleState, g: seq<real>) {
    Ready(b') && Racers(b'.units) == Racers(b.units) && SameOrders(b'.units, b.units) && Gauges(b'.units) == g
  }

  /** The same units have acted in both. */
  ghost predicate SameActors(us: seq<UnitState>, actors: seq<nat>, heads: seq<nat>) {
    && (forall j :: 0 <= j < |heads| ==> heads[j] < |us|)
    && actors == Orders(us, heads)
  }

  ghost predicate Tracks(b: BattleState, c: Course, s: Play) {
    InStep(b, c.b, s.g) && SameActors(b.units, c.actors, s.heads)
  }

  ghost function PlayOn(r: seq<Racer>, s: Play): (s': Play)
    requires ValidRacers(r) && |s.g| == |r|
    ensures |s'.g| == |r|
  {
    match Head(r, s.g)
    case None => s
    case Some(i) => Play(TakeTurn(r, s.g), s.heads + [i])
  }

  lemma ActorsSnoc(us: seq<UnitState>, actors: seq<nat>, heads: seq<nat>, i: nat)
    requires i < |us| && SameActors(us, actors, heads)
    ensures SameActors(us, actors + [us[i].order], heads + [i])
  {
  }

  /** Who acts in step: the head of the race, under its own order. */
  lemma HeadInStep(b: BattleState, b': BattleState, g: seq<real>)
    requires InStep(b, b', g)
    ensures |g| == |b.units| && Head(Racers(b.units), g).Some? && ValidField(b'.units)
    ensures b'.turnOrder != [] && b'.turnOrder[0] == b.units[Head(Racers(b.units), g).value].order
  {
    ReadyHead(b');
  }

  lemma StayInStep(b: BattleState, b': BattleState, g: seq<real>, fx: Passives)
    requires InStep(b, b', g) && |g| == |b.units| && ValidField(b'.units) && Silent(fx)
    ensures InStep(b, EndTurn(b', fx), TakeTurn(Racers(b.units), g))
  {
    EndTurnSteady(b', fx);
  }

  lemma TracksOn(b: BattleState, c: Course, s: Play, fx: Passives)
    requires Tracks(b, c, s) && Silent(fx)
    ensures ValidField(c.b.units) && |s.g| == |b.units|
    ensures Tracks(b, OneTurn(c, fx), PlayOn(Racers(b.units), s))
  {
    hide EndTurn, TakeTurn, FullMask, InStep, SameActors;
    HeadInStep(b, c.b, s.g);
    StayInStep(b, c.b, s.g, fx);
    ActorsSnoc(b.units, c.actors, s.heads, Head(Racers(b.units), s.g).value);
  }

  lemma TracksStart(b: BattleState)
    requires Ready(b)
    ensures Tracks(b, Course(b, []), Play(Settle(Racers(b.units), Gauges(b.units)), []))
  {
    var i :| 0 <= i < |b.units| && Alive(b.units[i]) && b.units[i].scv == FULL;
    assert Racers(b.units)[i].live && Gauges(b.units)[i] >= FULL;
  }

  lemma {:induction false} TurnsArePlayed(b: BattleState, k: nat, fx: Passives)
    requires ValidField(b.units) && Ready(b) && Silent(fx)
    ensures Tracks(b, After(b, k, fx), Played(Racers(b.units), Gauges(b.units), k))
  {
    hide Ready, Tracks, OneTurn, TakeTurn, Settle, FullMask;
    if k == 0 {
      TracksStart(b);
    } else {
      TurnsArePlayed(b, k - 1, fx);
      TracksOn(b, After(b, k - 1, fx), Played(Racers(b.units), Gauges(b.units), k - 1), fx);
    }
  }

  lemma OrdersContain(us: seq<UnitState>, q: seq<nat>, i: nat)
    requires DistinctOrders(us) && i < |us| && forall j :: 0 <= j < |q| ==> q[j] < |us|
    ensures us[i].order in Orders(us, q) <==> i in q
  {
    if i in q {
      var j :| 0 <= j < |q| && q[j] == i;
      assert Orders(us, q)[j] == us[i].order;
    }
    if us[i].order in Orders(us, q) {
      var j :| 0 <= j < |q| && Orders(us, q)[j] == us[i].order;
      assert q[j] == i;
    }
  }

  lemma {:induction false} FirstActsByOrder(us: seq<UnitState>, q: seq<nat>)
    requires DistinctOrders(us) && forall j :: 0 <= j < |q| ==> q[j] < |us|
    ensures forall j :: 0 <= j < |FirstActs(q)| ==> FirstActs(q)[j] < |us|
    ensures FirstActs(Orders(us, q)) == Orders(us, FirstActs(q))
  {
    if q != [] {
      var n := |q| - 1;
      FirstActsByOrder(us, q[..n]);
      assert Orders(us, q)[..n] == Orders(us, q[..n]);
      OrdersContain(us, FirstActs(q[..n]), q[n]);
    }
  }

  /** THE QUEUE COMES TRUE: over the turns the projection looked ahead, the units that act for
      the first time do so in exactly the published order. */
  lemma QueueComesTrue(b: BattleState, fx: Passives)
    requires ValidField(b.units) && Ready(b) && Silent(fx)
    ensures FirstActs(After(b, Budget(Racers(b.units)), fx).actors) == b.turnOrder
  {
    var r, g := Racers(b.units), Gauges(b.units);
    var k := Budget(r);
    TurnsArePlayed(b, k, fx);
    ProjectionComesTrue(r, g);
    FirstActsByOrder(b.units, Played(r, g, k).heads);
  }

  lemma ReadyMoves(b: BattleState, i: nat)
    requires Ready(b) && i < |b.units| && Alive(b.units[i])
    ensures Mover(Racers(b.units), i)
  {
    CalmReads(b.units[i]);
  }

  lemma OrdersLater(us: seq<UnitState>, q: seq<nat>, n: nat, i: nat)
    requires (forall j :: 0 <= j < |q| ==> q[j] < |us|) && n <= |q| && i < |us| && i in q[n..]
    ensures us[i].order in Orders(us, q)[n..]
  {
    var j :| 0 <= j < |q| - n && q[n..][j] == i;
    assert Orders(us, q)[n..][j] == us[i].order;
  }

  lemma ActorsPlayed(b: BattleState, k: nat, fx: Passives)
    requires ValidField(b.units) && Ready(b) && Silent(fx)
    ensures SameActors(b.units, After(b, k, fx).actors, Played(Racers(b.units), Gauges(b.units), k).heads)
  {
    TurnsArePlayed(b, k, fx);
  }

  lemma ActsLater(us: seq<UnitState>, soon: seq<nat>, late: seq<nat>, h1: seq<nat>, h2: seq<nat>, i: nat)
    requires SameActors(us, soon, h1) && SameActors(us, late, h2)
    requires i < |us| && |h1| <= |h2| && i in h2[|h1|..]
    ensures |soon| <= |late| && us[i].order in late[|soon|..]
  {
    OrdersLater(us, h2, |h1|, i);
  }

  /** NOBODY STARVES on the field: from any turn on, every living unit acts again within a
      number of turns computed from the speeds alone. */
  lemma NobodyStarves(b: BattleState, p: nat, k: nat, i: nat, fx: Passives)
    requires ValidField(b.units) && Ready(b) && Silent(fx) && i < |b.units| && Alive(b.units[i])
    requires k == Patience(Racers(b.units), i)
    ensures var soon := After(b, p, fx).actors; var late := After(b, p + k, fx).actors;
            |soon| <= |late| && b.units[i].order in late[|soon|..]
  {
    hide Ready, Silent, SameActors, Patience, OneTurn, TakeTurn, Settle, FullMask;
    ReadyMoves(b, i);
    ActorsPlayed(b, p, fx);
    ActorsPlayed(b, p + k, fx);
    NoStarvation(Racers(b.units), Gauges(b.units), p, i);
    ActsLater(b.units, After(b, p, fx).actors, After(b, p + k, fx).actors,
              Played(Racers(b.units), Gauges(b.units), p).heads, Played(Racers(b.units), Gauges(b.units), p + k).heads, i);
  }

  lemma CountSnoc(q: seq<nat>, x: nat, v: nat)
    ensures multiset(q + [x])[v] == multiset(q)[v] + if x == v then 1 else 0
  {
  }

  lemma {:induction false} CountByOrder(us: seq<UnitState>, q: seq<nat>, v: nat)
    requires DistinctOrders(us) && v < |us| && forall j :: 0 <= j < |q| ==> q[j] < |us|
    ensures multiset(Orders(us, q))[us[v].order] == multiset(q)[v]
  {
    if q != [] {
      var n := |q| - 1;
      CountByOrder(us, q[..n], v);
      assert q == q[..n] + [q[n]];
      CountSnoc(q[..n], q[n], v);
      CountSnoc(Orders(us, q[..n]), us[q[n]].order, us[v].order);
      assert Orders(us, q) == Orders(us, q[..n]) + [us[q[n]].order];
    }
  }

  lemma OrdersSlice(us: seq<UnitState>, q: seq<nat>, p1: nat, p2: nat)
    requires (forall j :: 0 <= j < |q| ==> q[j] < |us|) && p1 <= p2 <= |q|
    ensures Orders(us, q)[p1..p2] == Orders(us, q[p1..p2])
  {
  }

  lemma HeadsByOrder(us: seq<UnitState>, actors: seq<nat>, heads: seq<nat>, p1: nat, u: nat)
    requires SameActors(us, actors, heads) && DistinctOrders(us) && u < |us| && 0 < p1 < |actors|
    requires actors[p1 - 1] == us[u].order && actors[|actors| - 1] == us[u].order && us[u].order !in actors[p1..|actors| - 1]
    ensures |heads| == |actors| && heads[p1 - 1] == heads[|heads| - 1] == u && u !in heads[p1..|heads| - 1]
  {
    OrdersSlice(us, heads, p1, |heads| - 1);
    OrdersContain(us, heads[p1..|heads| - 1], u);
  }

  lemma CountLater(us: seq<UnitState>, actors: seq<nat>, heads: seq<nat>, p1: nat, v: nat)
    requires SameActors(us, actors, heads) && DistinctOrders(us) && v < |us| && p1 <= |actors|
    ensures |heads| == |actors| && multiset(actors[p1..])[us[v].order] == multiset(heads[p1..])[v]
  {
    OrdersSlice(us, heads, p1, |heads|);
    CountByOrder(us, heads[p1..|heads|], v);
    assert heads[p1..|heads|] == heads[p1..];
    assert actors[p1..|heads|] == actors[p1..];
  }

  /** FAIRNESS on the field: between an action of one unit and its next one, another acts at
      most once more than the whole number of times it is faster. */
  lemma FairOnField(b: BattleState, p1: nat, u: nat, v: nat, p: nat, fx: Passives)
    requires ValidField(b.units) && Ready(b) && Silent(fx)
    requires u < |b.units| && v < |b.units| && Alive(b.units[u]) && Alive(b.units[v])
    requires var a := After(b, p, fx).actors;
             && 0 < p1 < |a| && a[p1 - 1] == a[|a| - 1] == b.units[u].order && b.units[u].order !in a[p1..|a| - 1]
    ensures multiset(After(b, p, fx).actors[p1..])[b.units[v].order]
              <= 1 + FloorDiv(Racers(b.units)[v].spd, Racers(b.units)[u].spd)
  {
    hide Ready, Silent, SameActors, Played, After, FloorDiv;
    ReadyMoves(b, u);
    ReadyMoves(b, v);
    ReadyDistinct(b);
    ActorsPlayed(b, p, fx);
    EveryTurnActed(b, p, fx);
    var a, h := After(b, p, fx).actors, Played(Racers(b.units), Gauges(b.units), p).heads;
    HeadsByOrder(b.units, a, h, p1, u);
    Fairness(Racers(b.units), Gauges(b.units), p1, p, u, v);
    assert h[p1..p] == h[p1..];
    CountLater(b.units, a, h, p1, v);
  }

  lemma ReadyDistinct(b: BattleState)
    requires Ready(b)
    ensures DistinctOrders(b.units)
  {
  }

  /** While nothing disturbs the gauges, every turn has an actor. */
  lemma {:induction false} EveryTurnActed(b: BattleState, k: nat, fx: Passives)
    requires ValidField(b.units) && Ready(b) && Silent(fx)
    ensures |After(b, k, fx).actors| == k
  {
    hide Ready, Silent, EndTurn, Played, Tracks, SameActors;
    if k > 0 {
      EveryTurnActed(b, k - 1, fx);
      TurnsArePlayed(b, k - 1, fx);
      TracksActs(b, After(b, k - 1, fx), Played(Racers(b.units), Gauges(b.units), k - 1));
    }
  }

  lemma TracksActs(b: BattleState, c: Course, s: Play)
    requires Tracks(b, c, s)
    ensures c.b.turnOrder != []
  {
    hide SameActors;
    HeadInStep(b, c.b, s.g);
  }
}
