/** A field nobody on which will ever act again: where the cap on skipped turns bites. */
module Frozen {
  import opened Units
  import opened TurnQueue
  import opened Turns
  import opened News
  import opened TurnTheorems
  import opened Calm

  /** The unit holds a status that stops its turns and never runs out. */
  predicate FrozenStatuses(ss: seq<Active>) {
    exists k :: 0 <= k < |ss| && ss[k].immobilizes && ss[k].remaining.None?
  }

  ghost predicate AllFrozen(us: seq<UnitState>) {
    forall i :: 0 <= i < |us| && Alive(us[i]) ==> FrozenStatuses(us[i].statuses)
  }

  /** Life is lost and statuses are aged, and nothing else happens that matters here. */
  ghost predicate Thaws(us: seq<UnitState>, us': seq<UnitState>) {
    && |us'| == |us|
    && forall i :: 0 <= i < |us| && Alive(us'[i]) ==>
         Alive(us[i]) && (FrozenStatuses(us[i].statuses) ==> FrozenStatuses(us'[i].statuses))
  }

  lemma ThawsOn(us: seq<UnitState>, us1: seq<UnitState>, us2: seq<UnitState>)
    requires Thaws(us, us1) && Thaws(us1, us2)
    ensures Thaws(us, us2)
  {
  }

  lemma StaysFrozen(us: seq<UnitState>, us': seq<UnitState>)
    requires AllFrozen(us) && Thaws(us, us')
    ensures AllFrozen(us')
  {
  }

  lemma {:induction false} KeptFrozen(ss: seq<Active>, gauge: bool)
    requires FrozenStatuses(ss)
    ensures FrozenStatuses(Kept(ss, gauge))
  {
    var k :| 0 <= k < |ss| && ss[k].immobilizes && ss[k].remaining.None?;
    var rest := Kept(ss[1..], gauge);
    if k == 0 {
      assert Kept(ss, gauge)[0] == ss[0];
    } else {
      assert ss[1..][k - 1] == ss[k];
      KeptFrozen(ss[1..], gauge);
      var j :| 0 <= j < |rest| && rest[j].immobilizes && rest[j].remaining.None?;
      if |Kept(ss, gauge)| > |rest| { assert Kept(ss, gauge)[j + 1] == rest[j]; }
    }
  }

  lemma AgeThaws(us: seq<UnitState>)
    ensures Thaws(us, AgeUnits(us))
  {
    forall i | 0 <= i < |us| && FrozenStatuses(us[i].statuses) ensures FrozenStatuses(AgeUnits(us)[i].statuses) {
      KeptFrozen(us[i].statuses, true);
    }
  }

  lemma {:induction false} UnblockThaws(b: BattleState)
    ensures Thaws(b.units, Unblock(b).units)
    decreases FieldBlockTurns(b.units)
  {
    hide Thaws, ForceFastest, AnyFillable;
    GaugesThaw(b.units);
    if AnyAlive(b.units) && !AnyFillable(b.units) && AgesSomething(b.units) {
      AgingEnds(b);
      AgeThaws(b.units);
      UnblockThaws(AgeBlocks(b));
      ThawsOn(b.units, AgeBlocks(b).units, Unblock(AgeBlocks(b)).units);
    }
  }

  lemma GaugesThaw(us: seq<UnitState>)
    ensures Thaws(us, us) && Thaws(us, ForceFastest(us)) && Thaws(us, FillUnits(us))
  {
  }

  lemma RollThaws(b: BattleState)
    requires ValidField(b.units)
    ensures Thaws(b.units, Roll(b).units)
  {
    UnblockThaws(b);
    UnblockValid(b);
    GaugesThaw(b.units);
    GaugesThaw(Unblock(b).units);
    hide Thaws, FillUnits;
    ThawsOn(b.units, Unblock(b).units, FillUnits(Unblock(b).units));
  }

  lemma TickThaws(b: BattleState, i: nat)
    requires i < |b.units| && Alive(b.units[i])
    ensures Thaws(b.units, Tick(b, i).units)
  {
  }

  lemma SkipThaws(b: BattleState, i: nat)
    requires i < |b.units|
    ensures Thaws(b.units, Skip(b, i).units)
  {
    if FrozenStatuses(b.units[i].statuses) { KeptFrozen(b.units[i].statuses, false); }
  }

  lemma FinishThaws(b: BattleState, i: nat, fx: Passives)
    requires i < |b.units| && Silent(fx)
    ensures Thaws(b.units, FinishAction(b, i, fx).units)
  {
    var b1 := b.(units := b.units[i := SpendGauge(TickCooldowns(b.units[i]))]);
    SilentFire(b1);
    if FrozenStatuses(b.units[i].statuses) { KeptFrozen(b.units[i].statuses, false); }
  }

  /** The head of the queue lives but cannot act. */
  ghost predicate HeadStuck(b: BattleState) {
    Acting(b).Some? && Alive(b.units[Acting(b).value]) && Immobilized(b.units[Acting(b).value])
  }

  lemma FrozenIsImmobilized(u: UnitState)
    requires FrozenStatuses(u.statuses)
    ensures Immobilized(u)
  {
  }

  /** One try at settling the head of a frozen field seats somebody else. */
  lemma FrozenStep(b: BattleState, depth: nat, fx: Passives)
    requires Seated(b) && AllFrozen(b.units) && Silent(fx) && Acting(b).Some?
    ensures var s := StartStep(b, depth, fx); s.Again? && Seated(s.b) && AllFrozen(s.b.units)
  {
    hide Roll, Fire, Tick, Skip, Immobilized, Follows, Thaws, AllFrozen, FrozenStatuses;
    var i := Acting(b).value;
    var b1 := Tick(b, i);
    TickThaws(b, i);
    StaysFrozen(b.units, b1.units);
    SilentFire(b1);
    OpenFollows(b, i, []);
    if !Alive(b1.units[i]) {
      RollThaws(b1);
      StaysFrozen(b1.units, Roll(b1).units);
      ReseatSeats(b1, Roll(b1).round);
    } else {
      FrozenAt(b1.units, i);
      SkipValid(b1, i);
      SkipFollows(b1, i);
      FollowsDistinct(b1, Skip(b1, i));
      SkipThaws(b1, i);
      StaysFrozen(b1.units, Skip(b1, i).units);
      RollThaws(Skip(b1, i));
      StaysFrozen(Skip(b1, i).units, Roll(Skip(b1, i)).units);
      ReseatSeats(Skip(b1, i), Roll(Skip(b1, i)).round + 1);
    }
  }

  lemma FrozenAt(us: seq<UnitState>, i: nat)
    requires AllFrozen(us) && i < |us| && Alive(us[i])
    ensures Immobilized(us[i])
  {
    FrozenIsImmobilized(us[i]);
  }

  lemma {:induction false} FrozenSettles(b: BattleState, depth: nat, fx: Passives)
    requires Seated(b) && AllFrozen(b.units) && Silent(fx)
    ensures HeadStuck(StartOfTurn(b, depth, fx)) || !AnyAlive(StartOfTurn(b, depth, fx).units)
    decreases |b.units| + 1 - depth
  {
    hide StartStep, AllFrozen, Immobilized, Silent;
    if Acting(b).Some? {
      if depth <= |b.units| {
        FrozenStep(b, depth, fx);
        FrozenSettles(StartStep(b, depth, fx).b, depth + 1, fx);
      } else {
        FrozenAt(b.units, Acting(b).value);
      }
    } else {
      NobodySettles(b, depth, fx);
    }
  }

  lemma NobodySettles(b: BattleState, depth: nat, fx: Passives)
    requires ValidField(b.units) && Acting(b).None?
    ensures StartOfTurn(b, depth, fx) == b
  {
  }

  /** A FROZEN FIELD STALLS: when every living unit is held by a status that never runs out, the
      turn that ends hands the next one to a unit that cannot take it, exactly when anybody is
      left alive; blocks, damage over time and SPD effects make no difference. */
  lemma FrozenFieldStalls(b: BattleState, fx: Passives)
    requires ValidField(b.units) && DistinctOrders(b.units) && AllFrozen(b.units) && Silent(fx)
    ensures HeadStuck(EndTurn(b, fx)) <==> AnyAlive(EndTurn(b, fx).units)
  {
    RotateFrozen(b, fx);
    RotateFollows(b, fx);
    hide Rotate, AllFrozen, HeadStuck, Follows, Silent;
    FrozenSettles(Rotate(b, fx), 0, fx);
    if HeadStuck(EndTurn(b, fx)) { StuckLives(EndTurn(b, fx)); }
  }

  lemma StuckLives(b: BattleState)
    requires HeadStuck(b)
    ensures AnyAlive(b.units)
  {
  }

  lemma RotateFrozen(b: BattleState, fx: Passives)
    requires ValidField(b.units) && AllFrozen(b.units) && Silent(fx)
    ensures AllFrozen(Rotate(b, fx).units)
  {
    var a := Acting(b);
    var b1 := if a.None? then b else FinishAction(b, a.value, fx);
    if a.Some? { FinishThaws(b, a.value, fx); StaysFrozen(b.units, b1.units); }
    AgeThaws(b1.units);
    AgedValid(b1);
    hide FinishAction, Roll, Thaws, AllFrozen;
    StaysFrozen(b1.units, AgeBlocks(b1).units);
    RollThaws(AgeBlocks(b1));
    StaysFrozen(AgeBlocks(b1).units, Roll(AgeBlocks(b1)).units);
  }
}
