/** A field on which nobody living is held: deaths alone never reach the cap on skipped turns. */
module Unheld {
  import opened Units
  import opened TurnQueue
  import opened Turns
  import opened News
  import opened TurnTheorems
  import opened Projection
  import opened Calm

  predicate NoStops(ss: seq<Active>) {
    forall k :: 0 <= k < |ss| ==> !ss[k].immobilizes
  }

  predicate Free(u: UnitState) { Alive(u) ==> NoStops(u.statuses) }

  predicate FreeField(us: seq<UnitState>) {
    forall i :: 0 <= i < |us| ==> Free(us[i])
  }

  predicate GrantsNone(es: seq<Effect>) {
    forall k :: 0 <= k < |es| && es[k].Grant? ==> !es[k].status.immobilizes
  }

  ghost predicate NeverHolds(fx: Passives) {
    forall m, b: BattleState :: GrantsNone(fx(m, b))
  }

  // -- nothing in a turn holds anybody ------------------------------------------------

  lemma {:induction false} DropFree(ss: seq<Active>, id: int)
    requires NoStops(ss)
    ensures NoStops(Drop(ss, id))
  {
    if ss != [] { DropFree(ss[1..], id); }
  }

  lemma {:induction false} PutFree(ss: seq<Active>, st: Active)
    requires NoStops(ss) && !st.immobilizes
    ensures NoStops(Put(ss, st))
  {
    if ss != [] { PutFree(ss[1..], st); }
  }

  lemma StruckFree(u: UnitState, e: Effect)
    requires NoStops(u.statuses) && (e.Grant? ==> !e.status.immobilizes)
    ensures NoStops(Struck(u, e).statuses)
  {
    if e.Strip? { DropFree(u.statuses, e.id); }
    if e.Grant? { PutFree(u.statuses, e.status); }
  }

  lemma {:induction false} LandAllFree(us: seq<UnitState>, es: seq<Effect>, i: nat)
    requires i < |us| && NoStops(us[i].statuses) && GrantsNone(es)
    ensures NoStops(LandAll(us, es)[i].statuses)
    decreases |es|
  {
    if es != [] {
      var n := |es| - 1;
      LandAllFree(us, es[..n], i);
      StruckFree(LandAll(us, es[..n])[i], es[n]);
    }
  }

  /** What a passive does leaves whoever could act able to, dead or alive. */
  lemma FireFree(b: BattleState, es: seq<Effect>, fx: Passives, m: Moment)
    requires FreeField(b.units) && NeverHolds(fx) && es == fx(m, b)
    ensures FreeField(Fire(b, es).units)
    ensures forall i :: 0 <= i < |b.units| && Alive(b.units[i]) ==> !Immobilized(Fire(b, es).units[i])
  {
    forall i | 0 <= i < |b.units| && NoStops(b.units[i].statuses) ensures NoStops(Fire(b, es).units[i].statuses) {
      LandAllFree(b.units, es, i);
    }
    LandAllKeeps(b.units, es);
  }

  lemma AgeFree(us: seq<UnitState>)
    requires FreeField(us)
    ensures FreeField(AgeUnits(us))
  {
    forall i | 0 <= i < |us| && Alive(us[i]) ensures Free(AgeUnits(us)[i]) {
      KeptFree(us[i].statuses, true);
    }
  }

  lemma GaugesFree(us: seq<UnitState>)
    requires FreeField(us)
    ensures FreeField(ForceFastest(us)) && FreeField(FillUnits(us))
  {
  }

  lemma {:induction false} UnblockFree(b: BattleState)
    requires FreeField(b.units)
    ensures FreeField(Unblock(b).units)
    decreases FieldBlockTurns(b.units)
  {
    hide FreeField, ForceFastest, AnyFillable;
    GaugesFree(b.units);
    if AnyAlive(b.units) && !AnyFillable(b.units) && AgesSomething(b.units) {
      AgingEnds(b);
      AgeFree(b.units);
      UnblockFree(AgeBlocks(b));
    }
  }

  lemma RollFree(b: BattleState)
    requires ValidField(b.units) && FreeField(b.units)
    ensures FreeField(Roll(b).units)
  {
    UnblockFree(b);
    UnblockValid(b);
    GaugesFree(Unblock(b).units);
  }

  lemma TickFree(b: BattleState, i: nat)
    requires i < |b.units| && Alive(b.units[i]) && FreeField(b.units)
    ensures FreeField(Tick(b, i).units)
  {
  }

  lemma FinishFree(b: BattleState, i: nat, fx: Passives)
    requires i < |b.units| && FreeField(b.units) && NeverHolds(fx)
    ensures FreeField(FinishAction(b, i, fx).units)
  {
    var b1 := b.(units := b.units[i := SpendGauge(TickCooldowns(b.units[i]))]);
    var b2 := Fire(b1, fx(AfterAction, b1));
    FireFree(b1, fx(AfterAction, b1), fx, AfterAction);
    hide Fire;
    if Alive(b2.units[i]) { KeptFree(b2.units[i].statuses, false); }
  }

  lemma RotateFree(b: BattleState, fx: Passives)
    requires ValidField(b.units) && FreeField(b.units) && NeverHolds(fx)
    ensures FreeField(Rotate(b, fx).units)
  {
    hide FreeField, FinishAction, Roll, NeverHolds;
    var a := Acting(b);
    var b1 := if a.None? then b else FinishAction(b, a.value, fx);
    if a.Some? { FinishFree(b, a.value, fx); }
    AgeFree(b1.units);
    AgedValid(b1);
    RollFree(AgeBlocks(b1));
  }

  // -- every try costs a life -----------------------------------------------------------

  ghost function Living(us: seq<UnitState>): set<nat> {
    set i: nat | i < |us| && Alive(us[i])
  }

  lemma {:induction false} LivingCount(us: seq<UnitState>)
    ensures |Living(us)| <= |us|
  {
    if us == [] {
      assert Living(us) == {};
    } else {
      var n := |us| - 1;
      LivingCount(us[..n]);
      assert Living(us) == if Alive(us[n]) then Living(us[..n]) + {n} else Living(us[..n]);
    }
  }

  lemma FollowsLiving(b: BattleState, b': BattleState)
    requires Follows(b, b')
    ensures Living(b'.units) <= Living(b.units)
  {
  }

  /** Somebody was seated and died of it. */
  lemma FewerLive(b: BattleState, b1: BattleState, b2: BattleState, i: nat)
    requires i < |b.units| && Alive(b.units[i]) && Follows(b, b1) && Follows(b1, b2)
    requires i < |b1.units| && !Alive(b1.units[i])
    ensures |Living(b2.units)| < |Living(b.units)|
  {
    FollowsLiving(b, b1);
    FollowsLiving(b1, b2);
    assert i in Living(b.units) && i !in Living(b1.units);
    SubsetSize(Living(b2.units) + {i}, Living(b.units));
  }

  /** A turn that has to be settled again was that of a unit its own tick killed. */
  lemma TryAgainKills(b: BattleState, depth: nat, fx: Passives)
    requires Seated(b) && FreeField(b.units) && NeverHolds(fx) && Acting(b).Some? && StartStep(b, depth, fx).Again?
    ensures var b' := StartStep(b, depth, fx).b;
            Seated(b') && FreeField(b'.units) && |Living(b'.units)| < |Living(b.units)|
  {
    hide Roll, Fire, Tick, Skip, Follows, FreeField, NeverHolds, Living;
    var i := Acting(b).value;
    var b1 := Tick(b, i);
    TickFree(b, i);
    TickFollows(b, i);
    if !Alive(b1.units[i]) {
      var es := fx(OnDeath(depth), b1);
      OpenFollows(b, i, es);
      FireFree(b1, es, fx, OnDeath(depth));
      var b2 := Fire(b1, es);
      ReseatSeats(b2, Roll(b2).round);
      ReseatFollows(b2, Roll(b2).round);
      RollFree(b2);
      TickDistinct(b, i);
      FireFollows(b1, es);
      FollowsOn(b1, b2, Roll(b2));
      FewerLive(b, b1, Roll(b2), i);
    } else {
      FireFree(b1, fx(TurnStart(depth), b1), fx, TurnStart(depth));
    }
  }

  lemma TickDistinct(b: BattleState, i: nat)
    requires DistinctOrders(b.units) && i < |b.units|
    ensures DistinctOrders(Tick(b, i).units)
  {
  }

  lemma {:induction false} DeathsSettle(b: BattleState, depth: nat, fx: Passives)
    requires Seated(b) && FreeField(b.units) && NeverHolds(fx) && |Living(b.units)| + depth <= |b.units|
    ensures !Settling(b, depth, fx).capped
    decreases |b.units| + 1 - depth
  {
    hide StartStep, FreeField, NeverHolds, Living, Settling;
    if Settling(b, depth, fx).capped {
      SomebodySeated(b, depth, fx);
      SettlingOnce(b, depth, fx);
      TryAgainKills(b, depth, fx);
      DeathsSettle(StartStep(b, depth, fx).b, depth + 1, fx);
    }
  }

  lemma SomebodySeated(b: BattleState, depth: nat, fx: Passives)
    requires Seated(b) && Settling(b, depth, fx).capped
    ensures Acting(b).Some? && |Living(b.units)| > 0
  {
    assert Acting(b).value in Living(b.units);
  }

  /** DEATHS ALONE NEVER REACH THE CAP: when nobody living is held and no passive holds anybody,
      the settling runs to its end, however many die of their ticks and of passives on the way. */
  lemma DeathsNeverCap(b: BattleState, fx: Passives)
    requires ValidField(b.units) && DistinctOrders(b.units) && FreeField(b.units) && NeverHolds(fx)
    ensures !Settling(Rotate(b, fx), 0, fx).capped
  {
    hide Rotate, FreeField, NeverHolds, Follows, Settling, Living;
    RotateFree(b, fx);
    RotateFollows(b, fx);
    LivingCount(Rotate(b, fx).units);
    DeathsSettle(Rotate(b, fx), 0, fx);
  }

  /** On such a field every turn ends with a head that can act, exactly while anybody lives. */
  lemma FreeFieldPlays(b: BattleState, fx: Passives)
    requires ValidField(b.units) && DistinctOrders(b.units) && FreeField(b.units) && NeverHolds(fx) && SparesActor(fx)
    ensures HeadCanAct(EndTurn(b, fx)) <==> AnyAlive(EndTurn(b, fx).units)
  {
    hide FreeField, NeverHolds, SparesActor, EndTurn, Settling, Rotate;
    DeathsNeverCap(b, fx);
    EndTurnSeatsActor(b, fx);
  }
}
